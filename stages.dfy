/**
 * The game's constant tables: the 51-stage ladder of the single-player game, the
 * theme and symbol-set keys, and the three spin speeds.
 */
module StageTable {
  import opened Wrappers

  // ------------------------------------------------------------ symbol sets

  /** A reel symbol; its colour and pixel shape are not modelled. */
  datatype SlotSymbol = SlotSymbol(id: string, value: nat)

  /** The stage themes, in the order stages cycle through them. */
  const Themes: seq<string> := ["CLASSIC", "INDUSTRIAL", "CURSED", "ARCADE"]

  /** `SYMBOL_SETS`: the four stage themes plus the two multiplayer sets; the last symbol of each is its jackpot. */
  const SymbolSets: map<string, seq<SlotSymbol>> := map[
    "CLASSIC" := [SlotSymbol("cherry", 10), SlotSymbol("bell", 20), SlotSymbol("bar", 30),
                  SlotSymbol("seven", 40), SlotSymbol("diamond", 50), SlotSymbol("jackpot", 100)],
    "INDUSTRIAL" := [SlotSymbol("battery", 10), SlotSymbol("fuse", 20), SlotSymbol("bolt", 30),
                     SlotSymbol("saw", 40), SlotSymbol("hazard", 50), SlotSymbol("alarm", 100)],
    "CURSED" := [SlotSymbol("hook", 10), SlotSymbol("blood", 20), SlotSymbol("eye", 30),
                 SlotSymbol("skull", 40), SlotSymbol("ghost", 50), SlotSymbol("demon", 100)],
    "ARCADE" := [SlotSymbol("ticket", 10), SlotSymbol("coin", 20), SlotSymbol("joystick", 30),
                 SlotSymbol("invader", 40), SlotSymbol("balloon", 50), SlotSymbol("prize", 100)],
    "EXPLOSION" := [SlotSymbol("safe1", 1), SlotSymbol("safe2", 1), SlotSymbol("safe3", 1), SlotSymbol("bomb", 0)],
    "PRIZE" := [SlotSymbol("safe1", 1), SlotSymbol("safe2", 1), SlotSymbol("safe3", 1), SlotSymbol("ticket", 100)]
  ]

  /** The symbols of a set, falling back to CLASSIC for an unknown key. */
  function SymbolsOf(key: string): (r: seq<SlotSymbol>)
    ensures |r| > 0
    ensures key in SymbolSets ==> r == SymbolSets[key]
    ensures key !in SymbolSets ==> r == SymbolSets["CLASSIC"]
  {
    if key in SymbolSets then SymbolSets[key] else SymbolSets["CLASSIC"]
  }

  /** Every symbol set has a jackpot symbol that appears only in the last place. */
  lemma JackpotIsLastOnly(key: string)
    requires key in SymbolSets
    ensures var syms := SymbolSets[key];
      |syms| >= 4 && forall i :: 0 <= i < |syms| - 1 ==> syms[i].id != syms[|syms| - 1].id
  {
  }

  // ------------------------------------------------------------ spin speeds

  datatype SpinSpeed = Slow | Normal | Fast

  /** Durations in milliseconds. */
  datatype SpeedTiming = SpeedTiming(totalDuration: nat, reelDelay: nat, spinInterval: nat)

  /** `SPEED_CONFIG`. */
  function SpeedConfig(speed: SpinSpeed): SpeedTiming
  {
    match speed
    case Slow => SpeedTiming(2500, 400, 150)
    case Normal => SpeedTiming(1500, 250, 100)
    case Fast => SpeedTiming(600, 100, 60)
  }

  /** A faster setting is shorter in every field, and the reels settle within the spin. */
  lemma SpeedsOrdered()
    ensures var (s, n, f) := (SpeedConfig(Slow), SpeedConfig(Normal), SpeedConfig(Fast));
      && s.totalDuration > n.totalDuration > f.totalDuration
      && s.reelDelay > n.reelDelay > f.reelDelay
      && s.spinInterval > n.spinInterval > f.spinInterval
    ensures forall sp: SpinSpeed :: SpeedConfig(sp).spinInterval < SpeedConfig(sp).reelDelay < SpeedConfig(sp).totalDuration
  {
  }

  // ------------------------------------------------------------ stages

  /** One stage of the ladder; its colours are not modelled. */
  datatype Stage = Stage(id: nat, name: string, baseProb: real, wireCount: nat, jackpotReward: nat, symbolSetId: string)

  const StageCount: nat := 51

  /**
   * `baseProb` of each stage: the source's `max(0.01, 0.15 - 0.002 i + 0.02 sin i)`
   * rounded to three decimals, written out as its values.
   */
  const BaseProbs: seq<real> := BaseProbs0 + BaseProbs1 + BaseProbs2 + BaseProbs3 + BaseProbs4

  const BaseProbs0: seq<real> := [0.150, 0.165, 0.164, 0.147, 0.127, 0.121, 0.132, 0.149, 0.154, 0.140]
  const BaseProbs1: seq<real> := [0.119, 0.108, 0.115, 0.132, 0.142, 0.133, 0.112, 0.097, 0.099, 0.115]
  const BaseProbs2: seq<real> := [0.128, 0.125, 0.106, 0.087, 0.084, 0.097, 0.113, 0.115, 0.099, 0.079]
  const BaseProbs3: seq<real> := [0.070, 0.080, 0.097, 0.104, 0.093, 0.071, 0.058, 0.063, 0.080, 0.091]
  const BaseProbs4: seq<real> := [0.085, 0.065, 0.048, 0.047, 0.062, 0.077, 0.076, 0.058, 0.039, 0.033, 0.045]

  /** Every odds value of the table lies in (0, 0.99]. */
  predicate ProbsInRange(ps: seq<real>)
  {
    forall p :: p in ps ==> 0.0 < p <= 0.99
  }

  lemma BaseProbsInRange()
    ensures |BaseProbs| == StageCount
    ensures forall k :: 0 <= k < |BaseProbs| ==> 0.0 < BaseProbs[k] <= 0.99
  {
    assert ProbsInRange(BaseProbs0);
    assert ProbsInRange(BaseProbs1);
    assert ProbsInRange(BaseProbs2);
    assert ProbsInRange(BaseProbs3);
    assert ProbsInRange(BaseProbs4);
    assert ProbsInRange(BaseProbs);
    forall k | 0 <= k < |BaseProbs|
      ensures 0.0 < BaseProbs[k] <= 0.99
    {
      assert BaseProbs[k] in BaseProbs;
    }
  }

  /** The decimal digit of d. */
  function Digit(d: nat): char
    requires d < 10
  {
    "0123456789"[d]
  }

  predicate IsDigit(c: char)
  {
    '0' <= c <= '9'
  }

  /** Decimal text of n, as a template literal prints it. */
  function NatToString(n: nat): (r: string)
    ensures |r| > 0 && forall i :: 0 <= i < |r| ==> IsDigit(r[i])
    decreases n
  {
    if n < 10 then [Digit(n)] else NatToString(n / 10) + [Digit(n % 10)]
  }

  /** The value of a decimal text. */
  function ParseNat(s: string): nat
    requires forall i :: 0 <= i < |s| ==> IsDigit(s[i])
  {
    if s == [] then 0
    else
      var c := s[|s| - 1];
      assert IsDigit(c);
      ParseNat(s[..|s| - 1]) * 10 + (c as int - '0' as int)
  }

  /** Parsing undoes printing. */
  lemma {:induction false} ParsePrinted(n: nat)
    ensures ParseNat(NatToString(n)) == n
    decreases n
  {
    var s := NatToString(n);
    if n < 10 {
      assert s[..0] == [];
    } else {
      ParsePrinted(n / 10);
      assert s[..|s| - 1] == NatToString(n / 10);
    }
  }

  const VipSuffix: string := " [VIP]"

  /** The stage name: PENTHOUSE past stage 50, every fifth floor VIP. */
  function StageName(stageNum: nat): string
  {
    if stageNum > 50 then "PENTHOUSE"
    else if stageNum % 5 == 0 then "FLOOR " + NatToString(stageNum) + VipSuffix
    else "FLOOR " + NatToString(stageNum)
  }

  /** The floor number a name shows: 51 for PENTHOUSE, otherwise the number after `FLOOR `. */
  function NameNumber(name: string): Option<nat>
  {
    if name == "PENTHOUSE" then Some(51)
    else if |name| < 6 || name[..6] != "FLOOR " then None
    else
      var rest := name[6..];
      var digits := if |rest| >= 6 && rest[|rest| - 6..] == VipSuffix then rest[..|rest| - 6] else rest;
      if forall i :: 0 <= i < |digits| ==> IsDigit(digits[i]) then Some(ParseNat(digits)) else None
  }

  /** Each stage's name gives back its number, so no two stages share a name. */
  lemma NameShowsNumber(stageNum: nat)
    requires 1 <= stageNum <= 51
    ensures NameNumber(StageName(stageNum)) == Some(stageNum)
    ensures StageName(stageNum) == "PENTHOUSE" <==> stageNum == 51
    ensures stageNum <= 50 && stageNum % 5 == 0 ==> StageName(stageNum) == "FLOOR " + NatToString(stageNum) + " [VIP]"
    ensures stageNum <= 50 && stageNum % 5 != 0 ==> StageName(stageNum) == "FLOOR " + NatToString(stageNum)
  {
    var name := StageName(stageNum);
    if stageNum <= 50 {
      var d := NatToString(stageNum);
      ParsePrinted(stageNum);
      assert name[..6] == "FLOOR ";
      var rest := name[6..];
      if stageNum % 5 == 0 {
        assert rest == d + VipSuffix;
        assert rest[..|rest| - 6] == d;
      } else {
        assert rest == d;
        assert |d| <= 2 by {
          if stageNum >= 10 {
            assert NatToString(stageNum / 10) == [Digit(stageNum / 10)];
          }
        }
      }
      assert name != "PENTHOUSE" by {
        assert name[0] == 'F';
      }
    }
  }

  /** Entry i of the ladder. */
  function StageAt(i: nat): Stage
    requires i < StageCount
  {
    Stage(i + 1, StageName(i + 1), BaseProbs[i],
          if 3 + i / 5 < 8 then 3 + i / 5 else 8,
          500 + i * 250,
          Themes[i % |Themes|])
  }

  /** `STAGES`. */
  const Stages: seq<Stage> := StagesUpTo(StageCount)

  /** The first n entries of the ladder, as `Array.from` maps indices to stages. */
  function StagesUpTo(n: nat): seq<Stage>
    requires n <= StageCount
  {
    seq(n, i requires 0 <= i < n => StageAt(i))
  }

  /** Entry i has id i+1 and 3 to 8 wires, its odds lie in (0, 0.99], and its symbol set exists. */
  lemma StageFacts(i: nat)
    requires i < |Stages|
    ensures |Stages| == 51
    ensures Stages[i].id == i + 1
    ensures 3 <= Stages[i].wireCount <= 8
    ensures 0.0 < Stages[i].baseProb <= 0.99
    ensures Stages[i].jackpotReward == 500 + 250 * i
    ensures Stages[i].symbolSetId == Themes[i % 4] && Stages[i].symbolSetId in SymbolSets
  {
    BaseProbsInRange();
  }

  /** Later stages never have fewer wires and always pay more. */
  lemma StagesMonotone(i: nat, j: nat)
    requires i < j < |Stages|
    ensures Stages[i].wireCount <= Stages[j].wireCount
    ensures Stages[i].jackpotReward < Stages[j].jackpotReward
  {
    assert i / 5 <= j / 5;
  }

  /** Distinct stages have distinct names. */
  lemma StageNamesDistinct(i: nat, j: nat)
    requires i < j < |Stages|
    ensures Stages[i].name != Stages[j].name
  {
    assert Stages[i] == StageAt(i) && Stages[j] == StageAt(j);
    NameShowsNumber(i + 1);
    NameShowsNumber(j + 1);
  }
}
