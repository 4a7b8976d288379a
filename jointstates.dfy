/**
 * The joint-state listener of src/main.cpp: `jointStatesCallback` copies the
 * positions of a joint-state message into the 18-slot array `jointPositions`,
 * recognising each joint under two names, and raises `jointPosFlag` once
 * every slot holds a received value; `main` first fills the array with the
 * sentinel 1e10 so that a slot never written stays above the 1e9 threshold.
 */
module JointStates {
  import opened Wrappers

  const JOINT_COUNT: nat := 18
  /** Value written into every slot before the first message. */
  const SENTINEL: real := 10000000000.0
  /** A slot above this value counts as not yet received. */
  const RECEIVED_BOUND: real := 1000000000.0

  /**
   * Reference table: slot k is named ALIASES[k].0 in the long naming scheme
   * and ALIASES[k].1 in the short one. Slots run front, middle, rear; left
   * before right; coxa, femur, tibia.
   */
  const ALIASES: seq<(string, string)> := [
    ("front_left_body_coxa", "AL_coxa_joint"),
    ("front_left_coxa_femour", "AL_femur_joint"),
    ("front_left_femour_tibia", "AL_tibia_joint"),
    ("front_right_body_coxa", "AR_coxa_joint"),
    ("front_right_coxa_femour", "AR_femur_joint"),
    ("front_right_femour_tibia", "AR_tibia_joint"),
    ("middle_left_body_coxa", "BL_coxa_joint"),
    ("middle_left_coxa_femour", "BL_femur_joint"),
    ("middle_left_femour_tibia", "BL_tibia_joint"),
    ("middle_right_body_coxa", "BR_coxa_joint"),
    ("middle_right_coxa_femour", "BR_femur_joint"),
    ("middle_right_femour_tibia", "BR_tibia_joint"),
    ("rear_left_body_coxa", "CL_coxa_joint"),
    ("rear_left_coxa_femour", "CL_femur_joint"),
    ("rear_left_femour_tibia", "CL_tibia_joint"),
    ("rear_right_body_coxa", "CR_coxa_joint"),
    ("rear_right_coxa_femour", "CR_femur_joint"),
    ("rear_right_femour_tibia", "CR_tibia_joint")]

  /** `name` is one of slot k's two names: `strcmp` returns 0 for one of them. */
  predicate IsAliasOf(name: string, k: nat)
    requires k < |ALIASES|
  {
    name == ALIASES[k].0 || name == ALIASES[k].1
  }

  /**
   * The if-chain of `jointStatesCallback` from slot i on: the first slot
   * that has `name` as one of its two names, or None.
   */
  function SlotFrom(name: string, i: nat): (r: Option<nat>)
    requires i <= JOINT_COUNT
    ensures r.Some? ==> i <= r.value < JOINT_COUNT && IsAliasOf(name, r.value) &&
                        forall j | i <= j < r.value :: !IsAliasOf(name, j)
    ensures r.None? ==> forall j | i <= j < JOINT_COUNT :: !IsAliasOf(name, j)
    decreases JOINT_COUNT - i
  {
    if i == JOINT_COUNT then None
    else if IsAliasOf(name, i) then Some(i)
    else SlotFrom(name, i + 1)
  }

  /**
   * What `c_str()` hands to `strcmp`: the characters of `s` before its first
   * NUL, or all of them when it has none.
   */
  function CStr(s: string): (r: string)
    ensures r <= s && '\0' !in r
    ensures |r| < |s| ==> s[|r|] == '\0'
  {
    if |s| == 0 || s[0] == '\0' then "" else [s[0]] + CStr(s[1..])
  }

  /** A name without a NUL reaches `strcmp` whole. */
  lemma CStrOfNulFree(s: string)
    requires '\0' !in s
    ensures CStr(s) == s
  {
  }

  /**
   * The slot a joint name writes: the name is cut at its first NUL, as the
   * source's `strcmp` on `c_str()` does, and the result is one of the 18
   * slots, of which the cut name is an alias, with no earlier slot having it
   * as alias; None exactly for a name whose cut is neither alias of any slot.
   */
  function SlotOf(name: string): (r: Option<nat>)
    ensures var c := CStr(name);
            r.Some? ==> r.value < JOINT_COUNT && IsAliasOf(c, r.value) &&
                        forall j | 0 <= j < r.value :: !IsAliasOf(c, j)
    ensures var c := CStr(name);
            r.None? <==> forall k | 0 <= k < JOINT_COUNT :: !IsAliasOf(c, k)
  {
    SlotFrom(CStr(name), 0)
  }

  /** A name writes slot k exactly when its C-string part names k and no earlier slot. */
  lemma SlotOfIff(name: string, k: nat)
    requires k < JOINT_COUNT
    ensures SlotOf(name) == Some(k) <==> IsAliasOf(CStr(name), k) && forall j | 0 <= j < k :: !IsAliasOf(CStr(name), j)
  {
  }

  /** Characters after a NUL are never compared: a recognised name followed by a NUL and anything writes the same slot. */
  lemma NulEndsName(name: string, rest: string)
    requires '\0' !in name
    ensures SlotOf(name + ['\0'] + rest) == SlotOf(name)
  {
    CStrOfNulFree(name);
    CStrAtFirstNul(name, rest);
  }

  /** Cutting `name + NUL + rest` gives `name`. */
  lemma {:induction false} CStrAtFirstNul(name: string, rest: string)
    requires '\0' !in name
    ensures CStr(name + ['\0'] + rest) == name
  {
    if |name| > 0 {
      assert (name + ['\0'] + rest)[1..] == name[1..] + ['\0'] + rest;
      assert name[0] in name;
      CStrAtFirstNul(name[1..], rest);
      assert name == [name[0]] + name[1..];
    }
  }

  /** None of the 36 names in the table contains a NUL. */
  lemma AliasesNulFree(k: nat)
    requires k < JOINT_COUNT
    ensures '\0' !in ALIASES[k].0 && '\0' !in ALIASES[k].1
  {
    if k < 6 {
      FrontNamesNulFree(k);
    } else if k < 12 {
      MiddleNamesNulFree(k);
    } else {
      RearNamesNulFree(k);
    }
  }

  lemma FrontNamesNulFree(k: nat)
    requires k < 6
    ensures '\0' !in ALIASES[k].0 && '\0' !in ALIASES[k].1
  {
    if k == 0 {} else if k == 1 {} else if k == 2 {} else if k == 3 {} else if k == 4 {}
  }

  lemma MiddleNamesNulFree(k: nat)
    requires 6 <= k < 12
    ensures '\0' !in ALIASES[k].0 && '\0' !in ALIASES[k].1
  {
    if k == 6 {} else if k == 7 {} else if k == 8 {} else if k == 9 {} else if k == 10 {}
  }

  lemma RearNamesNulFree(k: nat)
    requires 12 <= k < JOINT_COUNT
    ensures '\0' !in ALIASES[k].0 && '\0' !in ALIASES[k].1
  {
    if k == 12 {} else if k == 13 {} else if k == 14 {} else if k == 15 {} else if k == 16 {}
  }

  /** Each of the 36 names, under either naming scheme, writes exactly its own slot. */
  lemma AliasWritesOwnSlot(k: nat)
    requires k < JOINT_COUNT
    ensures SlotOf(ALIASES[k].0) == Some(k) && SlotOf(ALIASES[k].1) == Some(k)
  {
    if k < 3 {
      LongNamesUnseenFrontLeft(k);
      ShortNamesUnseenFrontLeft(k);
    } else if k < 6 {
      LongNamesUnseenFrontRight(k);
      ShortNamesUnseenFrontRight(k);
    } else if k < 9 {
      LongNamesUnseenMiddleLeft(k);
      ShortNamesUnseenMiddleLeft(k);
    } else if k < 12 {
      LongNamesUnseenMiddleRight(k);
      ShortNamesUnseenMiddleRight(k);
    } else if k < 15 {
      LongNamesUnseenRearLeft(k);
      ShortNamesUnseenRearLeft(k);
    } else {
      LongNamesUnseenRearRight(k);
      ShortNamesUnseenRearRight(k);
    }
    AliasesNulFree(k);
    CStrOfNulFree(ALIASES[k].0);
    CStrOfNulFree(ALIASES[k].1);
    SlotOfIff(ALIASES[k].0, k);
    SlotOfIff(ALIASES[k].1, k);
  }

  /** The long name of each slot of the front left leg matches no earlier slot. */
  lemma LongNamesUnseenFrontLeft(k: nat)
    requires 0 <= k < 3
    ensures forall j | 0 <= j < k :: !IsAliasOf(ALIASES[k].0, j)
  {
    if k == 0 {
    } else if k == 1 {
    } else {
      forall j | 0 <= j < 2 ensures !IsAliasOf(ALIASES[2].0, j) {
        if j == 0 {}
      }
    }
  }

  /** The short name of each slot of the front left leg matches no earlier slot. */
  lemma ShortNamesUnseenFrontLeft(k: nat)
    requires 0 <= k < 3
    ensures forall j | 0 <= j < k :: !IsAliasOf(ALIASES[k].1, j)
  {
    if k == 0 {
    } else if k == 1 {
    } else {
      forall j | 0 <= j < 2 ensures !IsAliasOf(ALIASES[2].1, j) {
        if j == 0 {}
      }
    }
  }

  /** The long name of each slot of the front right leg matches no earlier slot. */
  lemma LongNamesUnseenFrontRight(k: nat)
    requires 3 <= k < 6
    ensures forall j | 0 <= j < k :: !IsAliasOf(ALIASES[k].0, j)
  {
    if k == 3 {
      forall j | 0 <= j < 3 ensures !IsAliasOf(ALIASES[3].0, j) {
        if j == 0 {} else if j == 1 {}
      }
    } else if k == 4 {
      forall j | 0 <= j < 4 ensures !IsAliasOf(ALIASES[4].0, j) {
        if j == 0 {} else if j == 1 {} else if j == 2 {}
      }
    } else {
      forall j | 0 <= j < 5 ensures !IsAliasOf(ALIASES[5].0, j) {
        if j == 0 {} else if j == 1 {} else if j == 2 {} else if j == 3 {}
      }
    }
  }

  /** The short name of each slot of the front right leg matches no earlier slot. */
  lemma ShortNamesUnseenFrontRight(k: nat)
    requires 3 <= k < 6
    ensures forall j | 0 <= j < k :: !IsAliasOf(ALIASES[k].1, j)
  {
    if k == 3 {
      forall j | 0 <= j < 3 ensures !IsAliasOf(ALIASES[3].1, j) {
        if j == 0 {} else if j == 1 {}
      }
    } else if k == 4 {
      forall j | 0 <= j < 4 ensures !IsAliasOf(ALIASES[4].1, j) {
        if j == 0 {} else if j == 1 {} else if j == 2 {}
      }
    } else {
      forall j | 0 <= j < 5 ensures !IsAliasOf(ALIASES[5].1, j) {
        if j == 0 {} else if j == 1 {} else if j == 2 {} else if j == 3 {}
      }
    }
  }

  /** The long name of each slot of the middle left leg matches no earlier slot. */
  lemma LongNamesUnseenMiddleLeft(k: nat)
    requires 6 <= k < 9
    ensures forall j | 0 <= j < k :: !IsAliasOf(ALIASES[k].0, j)
  {
    if k == 6 {
      forall j | 0 <= j < 6 ensures !IsAliasOf(ALIASES[6].0, j) {
        if j == 0 {} else if j == 1 {} else if j == 2 {} else if j == 3 {} else if j == 4 {}
      }
    } else if k == 7 {
      forall j | 0 <= j < 7 ensures !IsAliasOf(ALIASES[7].0, j) {
        if j == 0 {} else if j == 1 {} else if j == 2 {} else if j == 3 {} else if j == 4 {} else if j == 5 {}
      }
    } else {
      forall j | 0 <= j < 8 ensures !IsAliasOf(ALIASES[8].0, j) {
        if j == 0 {} else if j == 1 {} else if j == 2 {} else if j == 3 {} else if j == 4 {} else if j == 5 {} else if j == 6 {}
      }
    }
  }

  /** The short name of each slot of the middle left leg matches no earlier slot. */
  lemma ShortNamesUnseenMiddleLeft(k: nat)
    requires 6 <= k < 9
    ensures forall j | 0 <= j < k :: !IsAliasOf(ALIASES[k].1, j)
  {
    if k == 6 {
      forall j | 0 <= j < 6 ensures !IsAliasOf(ALIASES[6].1, j) {
        if j == 0 {} else if j == 1 {} else if j == 2 {} else if j == 3 {} else if j == 4 {}
      }
    } else if k == 7 {
      forall j | 0 <= j < 7 ensures !IsAliasOf(ALIASES[7].1, j) {
        if j == 0 {} else if j == 1 {} else if j == 2 {} else if j == 3 {} else if j == 4 {} else if j == 5 {}
      }
    } else {
      forall j | 0 <= j < 8 ensures !IsAliasOf(ALIASES[8].1, j) {
        if j == 0 {} else if j == 1 {} else if j == 2 {} else if j == 3 {} else if j == 4 {} else if j == 5 {} else if j == 6 {}
      }
    }
  }

  /** The long name of each slot of the middle right leg matches no earlier slot. */
  lemma LongNamesUnseenMiddleRight(k: nat)
    requires 9 <= k < 12
    ensures forall j | 0 <= j < k :: !IsAliasOf(ALIASES[k].0, j)
  {
    if k == 9 {
      forall j | 0 <= j < 9 ensures !IsAliasOf(ALIASES[9].0, j) {
        if j == 0 {} else if j == 1 {} else if j == 2 {} else if j == 3 {} else if j == 4 {} else if j == 5 {} else if j == 6 {} else if j == 7 {}
      }
    } else if k == 10 {
      forall j | 0 <= j < 10 ensures !IsAliasOf(ALIASES[10].0, j) {
        if j == 0 {} else if j == 1 {} else if j == 2 {} else if j == 3 {} else if j == 4 {} else if j == 5 {} else if j == 6 {} else if j == 7 {} else if j == 8 {}
      }
    } else {
      forall j | 0 <= j < 11 ensures !IsAliasOf(ALIASES[11].0, j) {
        if j == 0 {} else if j == 1 {} else if j == 2 {} else if j == 3 {} else if j == 4 {} else if j == 5 {} else if j == 6 {} else if j == 7 {} else if j == 8 {} else if j == 9 {}
      }
    }
  }

  /** The short name of each slot of the middle right leg matches no earlier slot. */
  lemma ShortNamesUnseenMiddleRight(k: nat)
    requires 9 <= k < 12
    ensures forall j | 0 <= j < k :: !IsAliasOf(ALIASES[k].1, j)
  {
    if k == 9 {
      forall j | 0 <= j < 9 ensures !IsAliasOf(ALIASES[9].1, j) {
        if j == 0 {} else if j == 1 {} else if j == 2 {} else if j == 3 {} else if j == 4 {} else if j == 5 {} else if j == 6 {} else if j == 7 {}
      }
    } else if k == 10 {
      forall j | 0 <= j < 10 ensures !IsAliasOf(ALIASES[10].1, j) {
        if j == 0 {} else if j == 1 {} else if j == 2 {} else if j == 3 {} else if j == 4 {} else if j == 5 {} else if j == 6 {} else if j == 7 {} else if j == 8 {}
      }
    } else {
      forall j | 0 <= j < 11 ensures !IsAliasOf(ALIASES[11].1, j) {
        if j == 0 {} else if j == 1 {} else if j == 2 {} else if j == 3 {} else if j == 4 {} else if j == 5 {} else if j == 6 {} else if j == 7 {} else if j == 8 {} else if j == 9 {}
      }
    }
  }

  /** The long name of each slot of the rear left leg matches no earlier slot. */
  lemma LongNamesUnseenRearLeft(k: nat)
    requires 12 <= k < 15
    ensures forall j | 0 <= j < k :: !IsAliasOf(ALIASES[k].0, j)
  {
    if k == 12 {
      forall j | 0 <= j < 12 ensures !IsAliasOf(ALIASES[12].0, j) {
        if j == 0 {} else if j == 1 {} else if j == 2 {} else if j == 3 {} else if j == 4 {} else if j == 5 {} else if j == 6 {} else if j == 7 {} else if j == 8 {} else if j == 9 {} else if j == 10 {}
      }
    } else if k == 13 {
      forall j | 0 <= j < 13 ensures !IsAliasOf(ALIASES[13].0, j) {
        if j == 0 {} else if j == 1 {} else if j == 2 {} else if j == 3 {} else if j == 4 {} else if j == 5 {} else if j == 6 {} else if j == 7 {} else if j == 8 {} else if j == 9 {} else if j == 10 {} else if j == 11 {}
      }
    } else {
      forall j | 0 <= j < 14 ensures !IsAliasOf(ALIASES[14].0, j) {
        if j == 0 {} else if j == 1 {} else if j == 2 {} else if j == 3 {} else if j == 4 {} else if j == 5 {} else if j == 6 {} else if j == 7 {} else if j == 8 {} else if j == 9 {} else if j == 10 {} else if j == 11 {} else if j == 12 {}
      }
    }
  }

  /** The short name of each slot of the rear left leg matches no earlier slot. */
  lemma ShortNamesUnseenRearLeft(k: nat)
    requires 12 <= k < 15
    ensures forall j | 0 <= j < k :: !IsAliasOf(ALIASES[k].1, j)
  {
    if k == 12 {
      forall j | 0 <= j < 12 ensures !IsAliasOf(ALIASES[12].1, j) {
        if j == 0 {} else if j == 1 {} else if j == 2 {} else if j == 3 {} else if j == 4 {} else if j == 5 {} else if j == 6 {} else if j == 7 {} else if j == 8 {} else if j == 9 {} else if j == 10 {}
      }
    } else if k == 13 {
      forall j | 0 <= j < 13 ensures !IsAliasOf(ALIASES[13].1, j) {
        if j == 0 {} else if j == 1 {} else if j == 2 {} else if j == 3 {} else if j == 4 {} else if j == 5 {} else if j == 6 {} else if j == 7 {} else if j == 8 {} else if j == 9 {} else if j == 10 {} else if j == 11 {}
      }
    } else {
      forall j | 0 <= j < 14 ensures !IsAliasOf(ALIASES[14].1, j) {
        if j == 0 {} else if j == 1 {} else if j == 2 {} else if j == 3 {} else if j == 4 {} else if j == 5 {} else if j == 6 {} else if j == 7 {} else if j == 8 {} else if j == 9 {} else if j == 10 {} else if j == 11 {} else if j == 12 {}
      }
    }
  }

  /** The long name of each slot of the rear right leg matches no earlier slot. */
  lemma LongNamesUnseenRearRight(k: nat)
    requires 15 <= k < 18
    ensures forall j | 0 <= j < k :: !IsAliasOf(ALIASES[k].0, j)
  {
    if k == 15 {
      forall j | 0 <= j < 15 ensures !IsAliasOf(ALIASES[15].0, j) {
        if j == 0 {} else if j == 1 {} else if j == 2 {} else if j == 3 {} else if j == 4 {} else if j == 5 {} else if j == 6 {} else if j == 7 {} else if j == 8 {} else if j == 9 {} else if j == 10 {} else if j == 11 {} else if j == 12 {} else if j == 13 {}
      }
    } else if k == 16 {
      forall j | 0 <= j < 16 ensures !IsAliasOf(ALIASES[16].0, j) {
        if j == 0 {} else if j == 1 {} else if j == 2 {} else if j == 3 {} else if j == 4 {} else if j == 5 {} else if j == 6 {} else if j == 7 {} else if j == 8 {} else if j == 9 {} else if j == 10 {} else if j == 11 {} else if j == 12 {} else if j == 13 {} else if j == 14 {}
      }
    } else {
      forall j | 0 <= j < 17 ensures !IsAliasOf(ALIASES[17].0, j) {
        if j == 0 {} else if j == 1 {} else if j == 2 {} else if j == 3 {} else if j == 4 {} else if j == 5 {} else if j == 6 {} else if j == 7 {} else if j == 8 {} else if j == 9 {} else if j == 10 {} else if j == 11 {} else if j == 12 {} else if j == 13 {} else if j == 14 {} else if j == 15 {}
      }
    }
  }

  /** The short name of each slot of the rear right leg matches no earlier slot. */
  lemma ShortNamesUnseenRearRight(k: nat)
    requires 15 <= k < 18
    ensures forall j | 0 <= j < k :: !IsAliasOf(ALIASES[k].1, j)
  {
    if k == 15 {
      forall j | 0 <= j < 15 ensures !IsAliasOf(ALIASES[15].1, j) {
        if j == 0 {} else if j == 1 {} else if j == 2 {} else if j == 3 {} else if j == 4 {} else if j == 5 {} else if j == 6 {} else if j == 7 {} else if j == 8 {} else if j == 9 {} else if j == 10 {} else if j == 11 {} else if j == 12 {} else if j == 13 {}
      }
    } else if k == 16 {
      forall j | 0 <= j < 16 ensures !IsAliasOf(ALIASES[16].1, j) {
        if j == 0 {} else if j == 1 {} else if j == 2 {} else if j == 3 {} else if j == 4 {} else if j == 5 {} else if j == 6 {} else if j == 7 {} else if j == 8 {} else if j == 9 {} else if j == 10 {} else if j == 11 {} else if j == 12 {} else if j == 13 {} else if j == 14 {}
      }
    } else {
      forall j | 0 <= j < 17 ensures !IsAliasOf(ALIASES[17].1, j) {
        if j == 0 {} else if j == 1 {} else if j == 2 {} else if j == 3 {} else if j == 4 {} else if j == 5 {} else if j == 6 {} else if j == 7 {} else if j == 8 {} else if j == 9 {} else if j == 10 {} else if j == 11 {} else if j == 12 {} else if j == 13 {} else if j == 14 {} else if j == 15 {}
      }
    }
  }

  // ---------------------------------------------------------------------------
  // One message
  // ---------------------------------------------------------------------------

  /** The slot each name of a message writes, in message order. */
  function Resolve(names: seq<string>): (t: seq<Option<nat>>)
    ensures |t| == |names|
    ensures ValidTargets(t)
  {
    seq(|names|, i requires 0 <= i < |names| => SlotOf(names[i]))
  }

  /** Every resolved slot is one of the 18. */
  ghost predicate ValidTargets(t: seq<Option<nat>>) {
    forall i | 0 <= i < |t| :: t[i].Some? ==> t[i].value < JOINT_COUNT
  }

  /**
   * The slots after the write loop has gone through a message in order:
   * a name resolved to slot k overwrites it with the position at the same
   * index, and an unrecognised name writes nothing.
   */
  function ApplyTargets(slots: seq<real>, targets: seq<Option<nat>>, values: seq<real>): (r: seq<real>)
    requires |slots| == JOINT_COUNT && ValidTargets(targets) && Positioned(targets, values)
    ensures |r| == JOINT_COUNT
    ensures forall k | 0 <= k < JOINT_COUNT && Unnamed(targets, k) :: r[k] == slots[k]
    decreases |targets|
  {
    if |targets| == 0 then slots
    else
      var n := |targets| - 1;
      var before := ApplyTargets(slots, targets[..n], values);
      match targets[n]
      case Some(k) => before[k := values[n]]
      case None => before
  }

  /**
   * Every name that writes a slot has a position at its index. Unrecognised
   * names are never used to index the positions, so they need none.
   */
  ghost predicate Positioned(targets: seq<Option<nat>>, values: seq<real>) {
    forall i | 0 <= i < |targets| && targets[i].Some? :: i < |values|
  }

  /** No name of the message writes slot k. */
  ghost predicate Unnamed(targets: seq<Option<nat>>, k: nat) {
    forall i | 0 <= i < |targets| :: targets[i] != Some(k)
  }

  /** The index of the last name in the message that writes slot k, if any. */
  function LastWriter(targets: seq<Option<nat>>, k: nat): (r: Option<nat>)
    ensures r.Some? ==> r.value < |targets| && targets[r.value] == Some(k) &&
                        forall j | r.value < j < |targets| :: targets[j] != Some(k)
    ensures r.None? ==> forall j | 0 <= j < |targets| :: targets[j] != Some(k)
    decreases |targets|
  {
    if |targets| == 0 then None
    else if targets[|targets| - 1] == Some(k) then Some(|targets| - 1)
    else LastWriter(targets[..|targets| - 1], k)
  }

  /** The value of a slot after a message: the last write to it wins, and a slot nobody names keeps its value. */
  lemma {:induction false} LastWriteWins(slots: seq<real>, targets: seq<Option<nat>>, values: seq<real>, k: nat)
    requires |slots| == JOINT_COUNT && ValidTargets(targets) && Positioned(targets, values) && k < JOINT_COUNT
    ensures ApplyTargets(slots, targets, values)[k] ==
              match LastWriter(targets, k)
              case Some(i) => values[i]
              case None => slots[k]
    decreases |targets|
  {
    if |targets| > 0 {
      LastWriteWins(slots, targets[..|targets| - 1], values, k);
    }
  }

  /** A name the callback does not recognise leaves every slot as it was. */
  lemma UnrecognisedNameIgnored(slots: seq<real>, names: seq<string>, name: string, values: seq<real>)
    requires |slots| == JOINT_COUNT
    requires forall i | 0 <= i < |names| && SlotOf(names[i]).Some? :: i < |values|
    requires forall k | 0 <= k < JOINT_COUNT :: !IsAliasOf(CStr(name), k)
    ensures ApplyTargets(slots, Resolve(names + [name]), values) == ApplyTargets(slots, Resolve(names), values)
  {
    var t := Resolve(names + [name]);
    assert t[|names|] == None;
    assert forall i | 0 <= i < |names| :: (names + [name])[i] == names[i];
    assert t[..|names|] == Resolve(names);
  }

  /** `jointPosFlag`'s test: no slot is above the 1e9 threshold. */
  ghost predicate AllReceived(s: seq<real>) {
    forall k | 0 <= k < |s| :: s[k] <= RECEIVED_BOUND
  }

  function Sentinels(): (r: seq<real>)
    ensures |r| == JOINT_COUNT && forall k | 0 <= k < JOINT_COUNT :: r[k] > RECEIVED_BOUND
  {
    seq(JOINT_COUNT, _ => SENTINEL)
  }

  /**
   * Starting from the sentinel fill, one message completes the array exactly
   * when every slot is written and its last write is at most 1e9.
   */
  lemma SentinelDetectsMissing(targets: seq<Option<nat>>, values: seq<real>)
    requires ValidTargets(targets) && Positioned(targets, values)
    ensures AllReceived(ApplyTargets(Sentinels(), targets, values)) <==>
              forall k | 0 <= k < JOINT_COUNT :: Received(targets, values, k)
  {
    var r := ApplyTargets(Sentinels(), targets, values);
    forall k | 0 <= k < JOINT_COUNT
      ensures r[k] <= RECEIVED_BOUND <==> Received(targets, values, k)
    {
      LastWriteWins(Sentinels(), targets, values, k);
    }
  }

  /** Slot k is written by the message and its last write is at most 1e9. */
  ghost predicate Received(targets: seq<Option<nat>>, values: seq<real>, k: nat)
    requires Positioned(targets, values)
  {
    LastWriter(targets, k).Some? && values[LastWriter(targets, k).value] <= RECEIVED_BOUND
  }

  // ---------------------------------------------------------------------------
  // The listener's global state
  // ---------------------------------------------------------------------------

  /** The globals `jointPositions[18]` and `jointPosFlag` with the code that updates them. */
  class JointStateListener {
    const positions: array<real>
    var complete: bool

    /** Static storage starts zeroed and the flag false. */
    constructor ()
      ensures positions.Length == JOINT_COUNT && fresh(positions)
      ensures positions[..] == seq(JOINT_COUNT, _ => 0.0) && !complete
    {
      positions := new real[JOINT_COUNT](_ => 0.0);
      complete := false;
    }

    /** The loop in `main` that fills every slot with 1e10 before listening. */
    method ResetToSentinel()
      requires positions.Length == JOINT_COUNT
      modifies positions
      ensures positions[..] == Sentinels()
    {
      for i := 0 to JOINT_COUNT
        invariant forall k | 0 <= k < i :: positions[k] == SENTINEL
      {
        positions[i] := SENTINEL;
      }
    }

    /**
     * `jointStatesCallback`: once complete, later messages are ignored;
     * otherwise the names are applied in order and the flag is recomputed.
     */
    method Callback(names: seq<string>, values: seq<real>)
      requires positions.Length == JOINT_COUNT
      requires forall i | 0 <= i < |names| && SlotOf(names[i]).Some? :: i < |values|
      modifies this, positions
      ensures old(complete) ==> complete && positions[..] == old(positions[..])
      ensures !old(complete) ==>
                positions[..] == ApplyTargets(old(positions[..]), Resolve(names), values) &&
                complete == AllReceived(positions[..])
    {
      if complete {
        return;
      }
      WriteMessage(names, values);
      RefreshFlag();
    }

    /** The callback's first loop: each recognised name writes its position into its slot. */
    method WriteMessage(names: seq<string>, values: seq<real>)
      requires positions.Length == JOINT_COUNT
      requires forall i | 0 <= i < |names| && SlotOf(names[i]).Some? :: i < |values|
      modifies positions
      ensures positions[..] == ApplyTargets(old(positions[..]), Resolve(names), values)
    {
      ghost var targets := Resolve(names);
      for i := 0 to |names|
        invariant positions[..] == ApplyTargets(old(positions[..]), targets[..i], values)
      {
        assert targets[..i + 1][..i] == targets[..i];
        match SlotOf(names[i])
        case Some(k) =>
          positions[k] := values[i];
        case None =>
      }
      assert targets[..|names|] == targets;
    }

    /** The callback's second loop: the flag is set exactly when no slot is above 1e9. */
    method RefreshFlag()
      requires positions.Length == JOINT_COUNT
      modifies this
      ensures complete == AllReceived(positions[..])
    {
      complete := true;
      for i := 0 to JOINT_COUNT
        invariant complete <==> forall k | 0 <= k < i :: positions[k] <= RECEIVED_BOUND
      {
        if positions[i] > RECEIVED_BOUND {
          complete := false;
        }
      }
    }
  }
}
