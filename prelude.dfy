/**
 * The value types shared by the client: the error model, SteamID, the three
 * game modes and their conversions, map and player identifiers, and the
 * points-to-rank classifier.
 */
module Prelude {
  import opened Js

  // ---------------------------------------------------------------- errors

  datatype ErrorKind = GlobalAPI | KZGO | Parsing | Input | NoData | Other

  /** `origin` is the call chain, innermost call first, joined by " > ". */
  datatype Error = Error(kind: ErrorKind, origin: string, tldr: string, raw: Json)

  datatype Result<+T> = Ok(value: T) | Err(error: Error)

  // --------------------------------------------------------------- SteamID

  /** A SteamID holds any string; nothing checks it on construction. */
  datatype SteamID = SteamID(value: string)

  predicate IsBit(c: char) { c == '0' || c == '1' }

  predicate IsDigit(c: char) { '0' <= c <= '9' }

  /**
   * The pattern STEAM_[0-1]:[0-1]:[0-9]+ matches `s` from position i. One digit
   * suffices for the trailing run: the test only asks whether a match exists.
   */
  predicate SteamIdAt(s: string, i: int)
  {
    0 <= i && i + 11 <= |s| && s[i..i + 6] == "STEAM_"
    && IsBit(s[i + 6]) && s[i + 7] == ':' && IsBit(s[i + 8]) && s[i + 9] == ':'
    && IsDigit(s[i + 10])
  }

  lemma SteamIdAtShift(s: string, i: int)
    requires |s| > 0 && i >= 0
    ensures SteamIdAt(s[1..], i) <==> SteamIdAt(s, i + 1)
  {
    if 0 <= i && i + 11 <= |s| - 1 {
      assert s[1..][i..i + 6] == s[i + 1..i + 7];
    }
  }

  lemma SteamIdTestStep(s: string)
    requires |s| > 0 && !SteamIdAt(s, 0)
    ensures (exists i :: SteamIdAt(s, i)) <==> (exists i :: SteamIdAt(s[1..], i))
  {
    if exists i :: SteamIdAt(s, i) {
      var i :| SteamIdAt(s, i);
      SteamIdAtShift(s, i - 1);
    }
    if exists i :: SteamIdAt(s[1..], i) {
      var i :| SteamIdAt(s[1..], i);
      SteamIdAtShift(s, i);
    }
  }

  /**
   * `SteamID.test(input)`: the regular expression is not anchored, so the
   * input passes when the pattern occurs anywhere in it. The method tests its
   * argument, not the SteamID it is called on.
   */
  function SteamIdTest(input: string): (r: bool)
    ensures r <==> exists i :: SteamIdAt(input, i)
    decreases |input|
  {
    if |input| < 11 then false
    else if SteamIdAt(input, 0) then true
    else
      SteamIdTestStep(input);
      SteamIdTest(input[1..])
  }

  /** Text around a SteamID does not stop the unanchored test from passing. */
  lemma SteamIdTestUnanchored(before: string, s: string, after: string)
    requires SteamIdTest(s)
    ensures SteamIdTest(before + s + after)
  {
    var i :| SteamIdAt(s, i);
    var t := before + s + after;
    assert t[|before| + i..|before| + i + 11] == s[i..i + 11];
    assert t[|before| + i..|before| + i + 6] == s[i..i + 6];
    assert SteamIdAt(t, |before| + i);
  }

  lemma SteamIdTestExamples()
    ensures SteamIdTest("STEAM_1:0:12345")
    ensures SteamIdTest("id STEAM_0:1:7 here")
    ensures !SteamIdTest("steam_1:0:1")
    ensures !SteamIdTest("STEAM_2:0:1")
  {
    assert SteamIdAt("STEAM_1:0:12345", 0);
    assert SteamIdAt("id STEAM_0:1:7 here", 3);
    assert "steam_1:0:1"[0..6][0] == 's';
  }

  // ----------------------------------------------------------------- modes

  datatype ModeKind = KZTimer | SimpleKZ | Vanilla

  /** `Mode` is a one-field object around its kind, fixed by its constructor. */
  datatype Mode = Mode(kind: ModeKind)

  /** `Mode.from_id` */
  function FromId(id: int): (r: Result<ModeKind>)
    ensures r.Ok? <==> id == 200 || id == 201 || id == 202
    ensures r.Err? ==> r.error == Error(Input, "Mode.from_id()",
      "Failed to convert from ID to Mode. " + IntToString(id) + " is not a valid ID.", JNull)
  {
    if id == 200 then Ok(KZTimer)
    else if id == 201 then Ok(SimpleKZ)
    else if id == 202 then Ok(Vanilla)
    else Err(Error(Input, "Mode.from_id()",
      "Failed to convert from ID to Mode. " + IntToString(id) + " is not a valid ID.", JNull))
  }

  /** `Mode.as_id`: converting back with `from_id` gives the same kind. */
  function AsId(m: Mode): (id: int)
    ensures FromId(id) == Ok(m.kind)
  {
    match m.kind
    case KZTimer => 200
    case SimpleKZ => 201
    case Vanilla => 202
  }

  /** `Mode.fancy` */
  function Fancy(m: Mode): string
  {
    match m.kind
    case KZTimer => "KZTimer"
    case SimpleKZ => "SimpleKZ"
    case Vanilla => "Vanilla"
  }

  /** `Mode.fancy_short` */
  function FancyShort(m: Mode): string
  {
    match m.kind
    case KZTimer => "KZT"
    case SimpleKZ => "SKZ"
    case Vanilla => "VNL"
  }

  /** `Mode.to_string`: the registry's key for the mode. */
  function ToString(m: Mode): string
  {
    match m.kind
    case KZTimer => "kz_timer"
    case SimpleKZ => "kz_simple"
    case Vanilla => "kz_vanilla"
  }

  /**
   * `Mode.from_string`. Each case label of the source's switch is written as
   * `"kz_timer" || "kztimer" || "kzt"`, an expression whose value is its first
   * string, so only the three registry keys are accepted (in any letter case).
   */
  function FromString(s: string): (r: Result<Mode>)
    ensures r.Ok? <==> ToLower(s) in {"kz_timer", "kz_simple", "kz_vanilla"}
    ensures r.Ok? ==> ToString(r.value) == ToLower(s)
    ensures r.Err? ==> r.error == Error(Input, "Mode.from_string()",
      "Failed to convert from string to Mode. " + s + " is not a valid identifier.", JNull)
  {
    var key := ToLower(s);
    if key == "kz_timer" then Ok(Mode(KZTimer))
    else if key == "kz_simple" then Ok(Mode(SimpleKZ))
    else if key == "kz_vanilla" then Ok(Mode(Vanilla))
    else Err(Error(Input, "Mode.from_string()",
      "Failed to convert from string to Mode. " + s + " is not a valid identifier.", JNull))
  }

  lemma ModeIdRoundTrip(k: ModeKind)
    ensures FromId(AsId(Mode(k))) == Ok(k)
    ensures AsId(Mode(k)) in {200, 201, 202}
  {
  }

  /** The other direction: every accepted id comes back from the mode it decodes to. */
  lemma IdKindRoundTrip(id: int)
    requires id in {200, 201, 202}
    ensures FromId(id).Ok? && AsId(Mode(FromId(id).value)) == id
  {
  }

  lemma {:induction false} ModeStringRoundTrip(m: Mode)
    ensures FromString(ToString(m)) == Ok(m)
  {
    assert ToLower(ToString(m)) == ToString(m);
  }

  /** Matching ignores letter case: an input and its lower-case form agree. */
  lemma {:induction false} FromStringCaseInsensitive(s: string)
    ensures FromString(s).Ok? <==> FromString(ToLower(s)).Ok?
    ensures FromString(s).Ok? ==> FromString(s) == FromString(ToLower(s))
  {
    ToLowerIdempotent(s);
  }

  /** The aliases the source lists beside each key are never matched. */
  lemma FromStringAliasesRejected()
    ensures FromString("KZ_TIMER") == Ok(Mode(KZTimer))
    ensures FromString("Kz_Simple") == Ok(Mode(SimpleKZ))
    ensures FromString("kztimer").Err? && FromString("kzt").Err?
    ensures FromString("simplekz").Err? && FromString("skz").Err?
    ensures FromString("vanilla").Err? && FromString("vnl").Err?
    ensures FromString("kzt").error.kind == Input
  {
    assert ToLower("simplekz")[0] == 's';
  }

  /** Each projection tells the three modes apart. */
  lemma ModeProjectionsInjective(a: Mode, b: Mode)
    ensures AsId(a) == AsId(b) ==> a == b
    ensures ToString(a) == ToString(b) ==> a == b
    ensures Fancy(a) == Fancy(b) ==> a == b
    ensures FancyShort(a) == FancyShort(b) ==> a == b
  {
  }

  // ----------------------------------------------------------- identifiers

  datatype MapIdentifier = MapName(name: string) | MapId(id: int)

  datatype PlayerIdentifier = PlayerName(name: string) | PlayerSteamId(steamId: SteamID)

  // ----------------------------------------------------------------- ranks

  /** The rank names in the source's enum order: Legend first, New last. */
  datatype RankName =
    | Legend | Master | Pro | Semipro
    | ExpertPlus | Expert | ExpertMinus
    | SkilledPlus | Skilled | SkilledMinus
    | RegularPlus | Regular | RegularMinus
    | CasualPlus | Casual | CasualMinus
    | AmateurPlus | Amateur | AmateurMinus
    | BeginnerPlus | Beginner | BeginnerMinus
    | New

  /** Position in enum order; a smaller index is a higher rank. */
  function RankIndex(r: RankName): nat
  {
    match r
    case Legend => 0 case Master => 1 case Pro => 2 case Semipro => 3
    case ExpertPlus => 4 case Expert => 5 case ExpertMinus => 6
    case SkilledPlus => 7 case Skilled => 8 case SkilledMinus => 9
    case RegularPlus => 10 case Regular => 11 case RegularMinus => 12
    case CasualPlus => 13 case Casual => 14 case CasualMinus => 15
    case AmateurPlus => 16 case Amateur => 17 case AmateurMinus => 18
    case BeginnerPlus => 19 case Beginner => 20 case BeginnerMinus => 21
    case New => 22
  }

  function RankAt(k: nat): (r: RankName)
    requires k <= 22
    ensures RankIndex(r) == k
  {
    match k
    case 0 => Legend case 1 => Master case 2 => Pro case 3 => Semipro
    case 4 => ExpertPlus case 5 => Expert case 6 => ExpertMinus
    case 7 => SkilledPlus case 8 => Skilled case 9 => SkilledMinus
    case 10 => RegularPlus case 11 => Regular case 12 => RegularMinus
    case 13 => CasualPlus case 14 => Casual case 15 => CasualMinus
    case 16 => AmateurPlus case 17 => Amateur case 18 => AmateurMinus
    case 19 => BeginnerPlus case 20 => Beginner case 21 => BeginnerMinus
    case _ => New
  }

  /**
   * The per-mode cascade of `Rank.from_points`: entry k is the score that must be
   * strictly exceeded for rank k (Legend first); the last entry is 0.
   */
  function Thresholds(mode: ModeKind): (t: seq<int>)
    ensures |t| == 22 && t[21] == 0
    ensures forall k :: 0 <= k < 22 ==> t[k] >= 0
  {
    match mode
    case KZTimer =>
      [1_000_000, 800_000, 600_000, 400_000, 250_000, 230_000, 200_000, 150_000,
       120_000, 100_000, 80_000, 70_000, 60_000, 40_000, 30_000, 20_000, 10_000,
       5_000, 2_000, 1_000, 500, 0]
    case SimpleKZ =>
      [800_000, 500_000, 400_000, 300_000, 250_000, 230_000, 200_000, 150_000,
       120_000, 100_000, 80_000, 70_000, 60_000, 40_000, 30_000, 20_000, 10_000,
       5_000, 2_000, 1_000, 500, 0]
    case Vanilla =>
      [600_000, 400_000, 300_000, 250_000, 200_000, 180_000, 160_000, 140_000,
       120_000, 100_000, 80_000, 70_000, 60_000, 40_000, 30_000, 20_000, 10_000,
       5_000, 2_000, 1_000, 500, 0]
  }

  /** The first position from i on whose threshold `points` strictly exceeds, or |t| if none. */
  function Classify(points: int, t: seq<int>, i: nat): (k: nat)
    requires i <= |t|
    ensures i <= k <= |t|
    ensures k < |t| ==> points > t[k]
    ensures forall j :: i <= j < k ==> points <= t[j]
    decreases |t| - i
  {
    if i == |t| then |t|
    else if points > t[i] then i
    else Classify(points, t, i + 1)
  }

  /**
   * `Rank.from_points`: the highest rank whose threshold the score strictly
   * exceeds; New when it exceeds none.
   */
  function FromPoints(points: int, mode: ModeKind): (r: RankName)
    ensures r == New <==> points <= 0
    ensures r != New ==> points > Thresholds(mode)[RankIndex(r)]
    ensures 0 < RankIndex(r) ==> points <= Thresholds(mode)[RankIndex(r) - 1]
  {
    RankAt(Classify(points, Thresholds(mode), 0))
  }

  /** More points never give a lower rank. */
  lemma FromPointsMonotone(p: int, q: int, mode: ModeKind)
    requires p <= q
    ensures RankIndex(FromPoints(q, mode)) <= RankIndex(FromPoints(p, mode))
  {
  }

  /** Each table is strictly decreasing, so the cascade's brackets do not overlap. */
  lemma ThresholdsDescending(mode: ModeKind)
    ensures forall j, k :: 0 <= j < k < 22 ==> Thresholds(mode)[k] < Thresholds(mode)[j]
  {
    ThresholdsFallStepwise(mode);
    StepwiseDescending(Thresholds(mode));
  }

  lemma ThresholdsFallStepwise(mode: ModeKind)
    ensures forall k :: 0 < k < 22 ==> Thresholds(mode)[k] < Thresholds(mode)[k - 1]
  {
    var t := Thresholds(mode);
    forall k | 0 < k < 22
      ensures t[k] < t[k - 1]
    {
      assert k in {1, 2, 3, 4, 5, 6, 7, 8, 9, 10, 11, 12, 13, 14, 15, 16, 17, 18, 19, 20, 21};
    }
  }

  /** A sequence that falls at every step falls between any two positions. */
  lemma {:induction false} StepwiseDescending(t: seq<int>)
    requires forall k :: 0 < k < |t| ==> t[k] < t[k - 1]
    ensures forall j, k :: 0 <= j < k < |t| ==> t[k] < t[j]
  {
    if |t| > 1 {
      var init := t[..|t| - 1];
      StepwiseDescending(init);
      forall j, k | 0 <= j < k < |t|
        ensures t[k] < t[j]
      {
        if k < |t| - 1 {
          assert init[k] == t[k] && init[j] == t[j];
        } else if j < k - 1 {
          assert init[j] == t[j] && init[k - 1] == t[k - 1];
        }
      }
    }
  }

  /** A score above threshold k and at most threshold k - 1 gets rank k. */
  lemma RankByThreshold(points: int, mode: ModeKind, k: nat)
    requires k < 22 && points > Thresholds(mode)[k]
    requires k == 0 || points <= Thresholds(mode)[k - 1]
    ensures FromPoints(points, mode) == RankAt(k)
  {
    var t := Thresholds(mode);
    ThresholdsDescending(mode);
    assert forall j :: 0 <= j < k ==> points <= t[j];
    assert Classify(points, t, 0) == k;
  }

  /**
   * Thresholds are strict: a score equal to threshold k - 1 gets rank k, one
   * point more gets rank k - 1.
   */
  lemma ThresholdIsStrict(mode: ModeKind, k: nat)
    requires 0 < k < 22
    ensures FromPoints(Thresholds(mode)[k - 1], mode) == RankAt(k)
    ensures FromPoints(Thresholds(mode)[k - 1] + 1, mode) == RankAt(k - 1)
  {
    var t := Thresholds(mode);
    ThresholdsDescending(mode);
    RankByThreshold(t[k - 1], mode, k);
    RankByThreshold(t[k - 1] + 1, mode, k - 1);
  }

  lemma KZTimerLegendBoundary()
    ensures FromPoints(1_000_001, KZTimer) == Legend
    ensures FromPoints(1_000_000, KZTimer) == Master
  {
    ThresholdIsStrict(KZTimer, 1);
  }

  lemma SimpleKZLegendBoundary()
    ensures FromPoints(800_001, SimpleKZ) == Legend
    ensures FromPoints(800_000, SimpleKZ) == Master
  {
    ThresholdIsStrict(SimpleKZ, 1);
  }

  lemma VanillaLegendBoundary()
    ensures FromPoints(600_001, Vanilla) == Legend
    ensures FromPoints(600_000, Vanilla) == Master
  {
    ThresholdIsStrict(Vanilla, 1);
  }

  /** `Rank.to_string` */
  function RankLabel(r: RankName): string
  {
    match r
    case Legend => "Legend" case Master => "Master" case Pro => "Pro" case Semipro => "Semipro"
    case ExpertPlus => "Expert+" case Expert => "Expert" case ExpertMinus => "Expert-"
    case SkilledPlus => "Skilled+" case Skilled => "Skilled" case SkilledMinus => "Skilled-"
    case RegularPlus => "Regular+" case Regular => "Regular" case RegularMinus => "Regular-"
    case CasualPlus => "Casual+" case Casual => "Casual" case CasualMinus => "Casual-"
    case AmateurPlus => "Amateur+" case Amateur => "Amateur" case AmateurMinus => "Amateur-"
    case BeginnerPlus => "Beginner+" case Beginner => "Beginner" case BeginnerMinus => "Beginner-"
    case New => "New"
  }

  /** Distinct ranks have distinct labels. */
  lemma RankLabelInjective(a: RankName, b: RankName)
    ensures RankLabel(a) == RankLabel(b) ==> a == b
  {
  }
}
