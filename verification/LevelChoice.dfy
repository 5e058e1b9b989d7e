/**
  The choice of an H.264 level: Table A-1 in section A.3 of ITU-T H.264 limits macroblock rate, frame size and
  bitrate. The setter remembers, over all calls, the lowest level it had to give up. Frame rates are reals here.
 */
module LevelChoice {

  /** Levels and profiles are codes in ascending order; the codes of the table are consecutive. */
  const LEVEL_UNUSED: nat := 0
  const LEVEL_AVC_1: nat := 0x5000

  const PROFILE_AVC_BASELINE: nat := 0x5000
  const PROFILE_AVC_HIGH: nat := PROFILE_AVC_BASELINE + 4
  const PROFILE_AVC_HIGH_10: nat := PROFILE_AVC_BASELINE + 7
  const PROFILE_AVC_HIGH_422: nat := PROFILE_AVC_BASELINE + 9

  datatype Limits = Limits(maxMBPS: int, maxFS: int, maxBR: int)

  /** Table A-1, from level 1 to level 5.2. */
  const LIMITS: seq<Limits> := [
    Limits(1485, 99, 64000),
    Limits(1485, 99, 128000),
    Limits(3000, 396, 192000),
    Limits(6000, 396, 384000),
    Limits(11880, 396, 768000),
    Limits(11880, 396, 2000000),
    Limits(19800, 792, 4000000),
    Limits(20250, 1620, 4000000),
    Limits(40500, 1620, 10000000),
    Limits(108000, 3600, 14000000),
    Limits(216000, 5120, 20000000),
    Limits(245760, 8192, 20000000),
    Limits(245760, 8192, 50000000),
    Limits(522240, 8704, 50000000),
    Limits(589824, 22080, 135000000),
    Limits(983040, 36864, 240000000),
    Limits(2073600, 36864, 240000000)
  ]

  function LevelAt(i: nat): nat {
    LEVEL_AVC_1 + i
  }

  predicate InTable(level: nat) {
    LEVEL_AVC_1 <= level < LEVEL_AVC_1 + |LIMITS|
  }

  /** What the client has configured. */
  datatype Config = Config(width: nat, height: nat, frameRate: real, bitrate: nat)

  /** Frame size in macroblocks, from 32-bit sizes that wrap around when rounded up. */
  function FrameSize(c: Config): nat {
    (c.width + 15) % 0x1_0000_0000 / 16 * ((c.height + 15) % 0x1_0000_0000 / 16)
  }

  /** Without wrap-around, the macroblocks of 16x16 pixels just cover the frame. */
  lemma MacroblocksCover(c: Config)
    requires c.width + 15 < 0x1_0000_0000 && c.height + 15 < 0x1_0000_0000
    ensures exists w: nat, h: nat ::
              && FrameSize(c) == w * h
              && 16 * w < c.width + 16 && c.width <= 16 * w && 16 * h < c.height + 16 && c.height <= 16 * h
  {
    var w, h := (c.width + 15) / 16, (c.height + 15) / 16;
    assert FrameSize(c) == w * h;
  }

  /** Higher profiles may use higher bitrates (Table A-2). */
  function MaxBitrate(maxBR: int, profile: nat): int {
    if profile >= PROFILE_AVC_HIGH_422 then maxBR * 4
    else if profile >= PROFILE_AVC_HIGH_10 then maxBR * 3
    else if profile >= PROFILE_AVC_HIGH then maxBR * 5 / 4
    else maxBR
  }

  /** The configuration keeps within the limits of the i-th level. */
  predicate Meets(c: Config, profile: nat, i: nat)
    requires i < |LIMITS|
  {
    && FrameSize(c) <= LIMITS[i].maxFS
    && FrameSize(c) as real * c.frameRate <= LIMITS[i].maxMBPS as real
    && c.bitrate <= MaxBitrate(LIMITS[i].maxBR, profile)
  }

  predicate Feasible(c: Config, profile: nat, supports: nat -> bool, i: nat)
    requires i < |LIMITS|
  {
    supports(LevelAt(i)) && Meets(c, profile, i)
  }

  /** The i-th level is the lowest supported one whose limits are met. */
  ghost predicate IsLowest(c: Config, profile: nat, supports: nat -> bool, i: nat) {
    i < |LIMITS| && Feasible(c, profile, supports, i) && forall j :: 0 <= j < i ==> !Feasible(c, profile, supports, j)
  }

  /** The search from below does not pass the candidate before it finds a level. */
  ghost predicate Kept(supports: nat -> bool, candidate: nat, lowest: nat) {
    supports(candidate) && forall j :: 0 <= j < lowest && supports(LevelAt(j)) ==> LevelAt(j) < candidate
  }

  ghost predicate Chooses(c: Config, profile: nat, supports: nat -> bool, candidate: nat, lowest: nat, level: nat) {
    && IsLowest(c, profile, supports, lowest)
    && level == if Kept(supports, candidate, lowest) then candidate else LevelAt(lowest)
  }

  /** All three columns go up. */
  lemma LimitsGoUp(i: nat)
    requires i + 1 < |LIMITS|
    ensures LIMITS[i].maxMBPS <= LIMITS[i + 1].maxMBPS
    ensures LIMITS[i].maxFS <= LIMITS[i + 1].maxFS
    ensures LIMITS[i].maxBR <= LIMITS[i + 1].maxBR
  {
  }

  /** Whatever a level allows, the levels above allow. */
  lemma {:induction false} HigherLevelsAllowMore(c: Config, profile: nat, i: nat, j: nat)
    requires i <= j < |LIMITS| && Meets(c, profile, i)
    ensures Meets(c, profile, j)
    decreases j - i
  {
    if i < j {
      HigherLevelsAllowMore(c, profile, i, j - 1);
      LimitsGoUp(j - 1);
    }
  }

  /** 1920x1080 at 30 frames per second and 20 Mbit/s needs level 4; no level below takes so large a frame. */
  lemma FullHdNeedsLevel4(supports: nat -> bool)
    requires forall level :: supports(level)
    ensures IsLowest(Config(1920, 1080, 30.0, 20_000_000), PROFILE_AVC_BASELINE, supports, 11)
  {
    var c := Config(1920, 1080, 30.0, 20_000_000);
    hide FrameSize, Meets, Feasible;
    FullHdSize(c);
    FullHdLimits(c);
    FeasibleIffMeets(c, PROFILE_AVC_BASELINE, supports);
    forall j | 0 <= j < 11
      ensures !Meets(c, PROFILE_AVC_BASELINE, j)
    {
      if Meets(c, PROFILE_AVC_BASELINE, j) {
        HigherLevelsAllowMore(c, PROFILE_AVC_BASELINE, j, 10);
      }
    }
  }

  lemma FullHdSize(c: Config)
    requires c.width == 1920 && c.height == 1080
    ensures FrameSize(c) == 8160
  {
    assert (c.width + 15) % 0x1_0000_0000 / 16 == 120 && (c.height + 15) % 0x1_0000_0000 / 16 == 68;
  }

  lemma FullHdLimits(c: Config)
    requires FrameSize(c) == 8160 && c.frameRate == 30.0 && c.bitrate == 20_000_000
    ensures Meets(c, PROFILE_AVC_BASELINE, 11) && !Meets(c, PROFILE_AVC_BASELINE, 10)
  {
    hide FrameSize;
    assert LIMITS[10] == Limits(216000, 5120, 20000000) && LIMITS[11] == Limits(245760, 8192, 20000000);
    assert 8160 as real * c.frameRate == 244800.0;
  }

  lemma FeasibleIffMeets(c: Config, profile: nat, supports: nat -> bool)
    requires forall level :: supports(level)
    ensures forall i :: 0 <= i < |LIMITS| ==> (Feasible(c, profile, supports, i) <==> Meets(c, profile, i))
  {
    hide Meets;
  }

  /** The bitrates that level 4 allows in the classes of profiles: 20, 25, 60 and 80 Mbit/s. */
  lemma BitratesAtLevel4(bitrate: nat)
    ensures bitrate <= MaxBitrate(LIMITS[11].maxBR, PROFILE_AVC_BASELINE) <==> bitrate <= 20_000_000
    ensures bitrate <= MaxBitrate(LIMITS[11].maxBR, PROFILE_AVC_HIGH) <==> bitrate <= 25_000_000
    ensures bitrate <= MaxBitrate(LIMITS[11].maxBR, PROFILE_AVC_HIGH_10) <==> bitrate <= 60_000_000
    ensures bitrate <= MaxBitrate(LIMITS[11].maxBR, PROFILE_AVC_HIGH_422) <==> bitrate <= 80_000_000
  {
  }

  datatype Outcome = Chosen(profile: nat, level: nat) | BadProfile | BadLevel(candidate: nat)

  function Min(a: nat, b: nat): nat {
    if a < b then a else b
  }

  /** The profile that is used: the requested one, or Baseline in its place. */
  function UsedProfile(profile: nat, supports: nat -> bool): nat {
    if !supports(profile) || profile < PROFILE_AVC_BASELINE then PROFILE_AVC_BASELINE else profile
  }

  class ProfileLevelSetter {
    var lowestConfigLevel: nat

    constructor ()
      ensures lowestConfigLevel == LEVEL_UNUSED
    {
      lowestConfigLevel := LEVEL_UNUSED;
    }

    /** The lower of the requested level and the one remembered. */
    function Candidate(level: nat): nat
      reads this
    {
      if lowestConfigLevel == LEVEL_UNUSED then level else Min(lowestConfigLevel, level)
    }

    /**
      Keeps the candidate level when it is supported and its limits are met; otherwise the lowest supported
      level that will do is chosen, and the candidate is remembered. It fails exactly when no level will do.
     */
    method Set(profile: nat, level: nat, supportsProfile: nat -> bool, supports: nat -> bool, c: Config)
      returns (outcome: Outcome)
      modifies this
      ensures var used, candidate := UsedProfile(profile, supportsProfile), old(Candidate(level));
              match outcome
              case BadProfile => !supportsProfile(used)
              case BadLevel(given) =>
                && supportsProfile(used) && given == candidate
                && forall i :: 0 <= i < |LIMITS| ==> !Feasible(c, used, supports, i)
              case Chosen(p, l) =>
                && supportsProfile(used) && p == used
                && (exists lowest :: Chooses(c, used, supports, candidate, lowest, l))
      ensures lowestConfigLevel == if outcome.Chosen? && outcome.level != old(Candidate(level))
                                   then old(Candidate(level)) else old(lowestConfigLevel)
      ensures old(lowestConfigLevel) != LEVEL_UNUSED ==> lowestConfigLevel <= old(lowestConfigLevel)
    {
      var used := profile;
      if !supportsProfile(profile) || profile < PROFILE_AVC_BASELINE {
        if !supportsProfile(PROFILE_AVC_BASELINE) {
          return BadProfile;
        }
        used := PROFILE_AVC_BASELINE;
      }
      var candidate := level;
      if lowestConfigLevel != LEVEL_UNUSED && lowestConfigLevel < level {
        candidate := lowestConfigLevel;
      }
      var found, needsUpdate, i := Search(candidate, used, supports, c);
      if !found {
        return BadLevel(candidate);
      }
      assert candidate == old(Candidate(level)) && used == UsedProfile(profile, supportsProfile);
      if needsUpdate {
        assert Chooses(c, UsedProfile(profile, supportsProfile), supports, old(Candidate(level)), i, LevelAt(i));
        lowestConfigLevel := candidate;
        return Chosen(used, LevelAt(i));
      }
      assert Chooses(c, UsedProfile(profile, supportsProfile), supports, old(Candidate(level)), i, candidate);
      return Chosen(used, candidate);
    }
  }

  /** Goes through the table from below, up to the first supported level that will do. */
  method Search(candidate: nat, profile: nat, supports: nat -> bool, c: Config)
    returns (found: bool, needsUpdate: bool, lowest: nat)
    ensures found ==> IsLowest(c, profile, supports, lowest) && (needsUpdate <==> !Kept(supports, candidate, lowest))
    ensures found && needsUpdate ==> LevelAt(lowest) != candidate
    ensures !found ==> forall i :: 0 <= i < |LIMITS| ==> !Feasible(c, profile, supports, i)
  {
    needsUpdate := !supports(candidate);
    lowest := 0;
    while lowest < |LIMITS|
      invariant lowest <= |LIMITS|
      invariant forall j :: 0 <= j < lowest ==> !Feasible(c, profile, supports, j)
      invariant needsUpdate <==> !Kept(supports, candidate, lowest)
    {
      if supports(LevelAt(lowest)) {
        if Meets(c, profile, lowest) {
          return true, needsUpdate, lowest;
        }
        if candidate <= LevelAt(lowest) {
          needsUpdate := true;
        }
      }
      lowest := lowest + 1;
    }
    return false, needsUpdate, lowest;
  }

  /** A level of the table is chosen exactly as the standard wants: it stays if it will do, else the lowest comes. */
  lemma ChoiceIsRight(c: Config, profile: nat, supports: nat -> bool, candidate: nat, lowest: nat, level: nat)
    requires InTable(candidate) && Chooses(c, profile, supports, candidate, lowest, level)
    ensures level == if Feasible(c, profile, supports, candidate - LEVEL_AVC_1) then candidate else LevelAt(lowest)
    ensures Feasible(c, profile, supports, level - LEVEL_AVC_1)
    ensures !Feasible(c, profile, supports, candidate - LEVEL_AVC_1) ==> candidate < level || !supports(candidate)
  {
    var k := candidate - LEVEL_AVC_1;
    if k >= lowest {
      HigherLevelsAllowMore(c, profile, lowest, k);
    } else if supports(candidate) {
      assert supports(LevelAt(k)) && candidate <= LevelAt(k);
    }
  }

  /** The chosen level keeps all three limits. */
  lemma ChosenKeepsLimits(c: Config, profile: nat, supports: nat -> bool, candidate: nat, lowest: nat, level: nat)
    requires InTable(candidate) && Chooses(c, profile, supports, candidate, lowest, level)
    ensures InTable(level)
    ensures var limits := LIMITS[level - LEVEL_AVC_1];
            && FrameSize(c) <= limits.maxFS && FrameSize(c) as real * c.frameRate <= limits.maxMBPS as real
            && c.bitrate <= MaxBitrate(limits.maxBR, profile)
  {
    hide FrameSize, MaxBitrate, Kept, Meets, IsLowest;
    ChoiceIsRight(c, profile, supports, candidate, lowest, level);
    ChosenInTable(c, profile, supports, candidate, lowest, level);
    WithinLimits(c, profile, level - LEVEL_AVC_1);
  }

  lemma ChosenInTable(c: Config, profile: nat, supports: nat -> bool, candidate: nat, lowest: nat, level: nat)
    requires InTable(candidate) && Chooses(c, profile, supports, candidate, lowest, level)
    ensures InTable(level)
  {
    hide Meets, Kept;
  }

  lemma WithinLimits(c: Config, profile: nat, i: nat)
    requires i < |LIMITS| && Meets(c, profile, i)
    ensures FrameSize(c) <= LIMITS[i].maxFS && FrameSize(c) as real * c.frameRate <= LIMITS[i].maxMBPS as real
    ensures c.bitrate <= MaxBitrate(LIMITS[i].maxBR, profile)
  {
    hide FrameSize, MaxBitrate;
  }

  /** Each supported level below the lowest one that will do breaks one of them. */
  lemma LowerBreaksLimits(c: Config, profile: nat, supports: nat -> bool, lowest: nat, j: nat)
    requires IsLowest(c, profile, supports, lowest) && j < lowest && supports(LevelAt(j))
    ensures || FrameSize(c) > LIMITS[j].maxFS || FrameSize(c) as real * c.frameRate > LIMITS[j].maxMBPS as real
            || c.bitrate > MaxBitrate(LIMITS[j].maxBR, profile)
  {
    hide FrameSize, MaxBitrate;
    assert !Feasible(c, profile, supports, j);
  }

  /**
    A level that had to be given up for one configuration comes back once the configuration allows it, when
    the client asks for the level it was given.
   */
  method LevelComesBack(profile: nat, level: nat, supportsProfile: nat -> bool, supports: nat -> bool,
                        first: Config, second: Config)
    returns (given: Outcome, later: Outcome)
    requires supportsProfile(UsedProfile(profile, supportsProfile)) && InTable(level) && supports(level)
    requires Feasible(second, UsedProfile(profile, supportsProfile), supports, level - LEVEL_AVC_1)
    ensures given.Chosen? ==> later == Chosen(UsedProfile(profile, supportsProfile), level)
  {
    var setter := new ProfileLevelSetter();
    given := setter.Set(profile, level, supportsProfile, supports, first);
    later := given;
    if given.Chosen? {
      var used := UsedProfile(profile, supportsProfile);
      ghost var lowest :| Chooses(first, used, supports, level, lowest, given.level);
      ChoiceIsRight(first, used, supports, level, lowest, given.level);
      assert setter.Candidate(given.level) == level;
      later := setter.Set(profile, given.level, supportsProfile, supports, second);
      hide Meets, Kept;
      if later.Chosen? {
        ghost var again :| Chooses(second, used, supports, level, again, later.level);
        ChoiceIsRight(second, used, supports, level, again, later.level);
      }
    }
  }
}
