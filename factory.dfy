/** The strategy catalog: 84 configurations keyed by code (C1-C15, P1-P15,
    SC1-SC15, SP1-SP15, S1-S24), built once by five loops, and the factory
    that turns a code and a base price into a strategy. */
module Factory {
  import opened Common
  import opened Text
  import opened Models
  import opened Base
  import opened Analytic
  import opened SpreadLabels
  import Payoffs
  import Spread
  import IronCondor

  /** The five groups of codes, in the order the catalog is built. */
  datatype Family = LongCalls | LongPuts | ShortCalls | ShortPuts | Spreads

  function Prefix(f: Family): string
  {
    match f
    case LongCalls => "C"
    case LongPuts => "P"
    case ShortCalls => "SC"
    case ShortPuts => "SP"
    case Spreads => "S"
  }

  function StrategyType(f: Family): string
  {
    match f
    case LongCalls => "call"
    case LongPuts => "put"
    case ShortCalls => "short_call"
    case ShortPuts => "short_put"
    case Spreads => "spread"
  }

  /** How many codes a family has. */
  function Count(f: Family): nat
  {
    if f == Spreads then 24 else 15
  }

  /** The family built by the `k`-th loop. */
  function FamilyAt(k: nat): (f: Family)
    requires k < 5
    ensures Order(f) == k
  {
    [LongCalls, LongPuts, ShortCalls, ShortPuts, Spreads][k]
  }

  /** The position of a family's loop. */
  function Order(f: Family): (k: nat)
    ensures k < 5
  {
    match f
    case LongCalls => 0
    case LongPuts => 1
    case ShortCalls => 2
    case ShortPuts => 3
    case Spreads => 4
  }

  lemma FamilyAtOrder(f: Family)
    ensures FamilyAt(Order(f)) == f
  {
  }

  /** The code of the `i`-th entry of a family (counting from zero): `f"{prefix}{i+1}"`. */
  function Code(f: Family, i: nat): string
  {
    Prefix(f) + NatToString(i + 1)
  }

  /** `moneyness_list`: five groups of three. */
  const MoneynessList: seq<string> :=
    ["Deep OTM", "Deep OTM", "Deep OTM", "Shallow OTM", "Shallow OTM",
     "Shallow OTM", "ATM", "ATM", "ATM", "Shallow ITM", "Shallow ITM",
     "Shallow ITM", "Deep ITM", "Deep ITM", "Deep ITM"]

  /** The moneyness labels, from the strike furthest below a call's money to the one furthest in. */
  const MoneynessGroups: seq<string> := ["Deep OTM", "Shallow OTM", "ATM", "Shallow ITM", "Deep ITM"]

  const TimeFrames: seq<string> := ["Near", "Medium", "Long"]

  /** `spread_names`. */
  const SpreadNames: seq<string> :=
    ["Bull Call Spread", "Bull Call Spread", "Bull Call Spread",
     "Bear Call Spread", "Bear Call Spread", "Bear Call Spread",
     "Bull Put Spread", "Bull Put Spread", "Bull Put Spread",
     "Bear Put Spread", "Bear Put Spread", "Bear Put Spread",
     "Calendar Spread", "Calendar Spread", "Ratio Spread", "Ratio Spread",
     "Back Ratio Spread", "Back Ratio Spread", "Iron Condor", "Iron Condor",
     "Iron Condor", "Butterfly Spread", "Butterfly Spread", "Butterfly Spread"]

  lemma {:induction false} AtLeastOnce(d: int, m: nat)
    requires d >= 1
    ensures d * m >= m
    decreases d
  {
    if d > 1 {
      AtLeastOnce(d - 1, m);
      assert d * m == (d - 1) * m + m;
    }
  }

  /** The remainder of `a` by `m` is the only `r` in [0, m) with `a == q * m + r`. */
  lemma ModUnique(a: int, m: nat, q: int, r: int)
    requires m > 0 && 0 <= r < m && a == q * m + r
    ensures a % m == r
  {
    var d := q - a / m;
    assert d * m == a % m - r;
    if d >= 1 {
      AtLeastOnce(d, m);
    } else if d <= -1 {
      AtLeastOnce(-d, m);
    }
  }

  /** Python's list repetition `s * n`. */
  function Repeat(s: seq<string>, n: nat): (r: seq<string>)
    ensures |r| == |s| * n
    ensures forall i :: 0 <= i < |r| ==> r[i] == s[i % |s|]
  {
    if n == 0 then []
    else
      var init := Repeat(s, n - 1);
      assert |init| == |s| * (n - 1);
      forall i | |init| <= i < |init| + |s|
        ensures (init + s)[i] == s[i % |s|]
      {
        ModUnique(i, |s|, n - 1, i - |init|);
      }
      init + s
  }

  /** `time_list = ["Near", "Medium", "Long"] * 5`. */
  function TimeList(): (r: seq<string>)
    ensures |r| == 15 && forall i :: 0 <= i < 15 ==> r[i] == TimeFrames[i % 3]
  {
    Repeat(TimeFrames, 5)
  }

  /** The configuration of the `i`-th entry of a family, as its loop builds it. */
  function Entry(f: Family, i: nat): StrategyConfig
    requires i < Count(f)
  {
    var code := Code(f, i);
    var timeList := TimeList();
    match f
    case LongCalls =>
      StrategyConfig(code, "Long Call - " + MoneynessList[i] + " - " + timeList[i], "call", MoneynessList[i],
        timeList[i], "Buy " + MoneynessList[i] + " call option, " + timeList[i] + " expiration")
    case LongPuts =>
      StrategyConfig(code, "Long Put - " + MoneynessList[i] + " - " + timeList[i], "put", MoneynessList[i],
        timeList[i], "Buy " + MoneynessList[i] + " put option, " + timeList[i] + " expiration")
    case ShortCalls =>
      StrategyConfig(code, "Short Call - " + MoneynessList[i] + " - " + timeList[i], "short_call", MoneynessList[i],
        timeList[i], "Sell " + MoneynessList[i] + " call option, " + timeList[i] + " expiration")
    case ShortPuts =>
      StrategyConfig(code, "Short Put - " + MoneynessList[i] + " - " + timeList[i], "short_put", MoneynessList[i],
        timeList[i], "Sell " + MoneynessList[i] + " put option, " + timeList[i] + " expiration")
    case Spreads =>
      // both arms of the source's conditional pick the same frame
      var timeFrame := if i < 21 then timeList[i % 3] else timeList[i % 3];
      StrategyConfig(code, SpreadNames[i] + " - " + timeFrame, "spread", "Mixed",
        timeFrame, SpreadNames[i] + " strategy, " + timeFrame + " expiration")
  }

  /** The first `n` iterations of a family's loop, run on the table `m`. */
  function Fill(m: map<string, StrategyConfig>, f: Family, n: nat): map<string, StrategyConfig>
    requires n <= Count(f)
  {
    if n == 0 then m else Fill(m, f, n - 1)[Code(f, n - 1) := Entry(f, n - 1)]
  }

  /** The table after the first `k` loops. */
  function Stage(k: nat): map<string, StrategyConfig>
    requires k <= 5
  {
    if k == 0 then map[] else Fill(Stage(k - 1), FamilyAt(k - 1), Count(FamilyAt(k - 1)))
  }

  /** What `_initialize_strategies` returns. */
  function Catalog(): map<string, StrategyConfig>
  {
    Stage(5)
  }

  /** `_initialize_strategies`: five loops, each adding one family's entries to the table. */
  method InitializeStrategies() returns (strategies: map<string, StrategyConfig>)
    ensures strategies == Catalog()
  {
    strategies := map[];
    strategies := AddLongCalls(strategies);
    strategies := AddLongPuts(strategies);
    strategies := AddShortCalls(strategies);
    strategies := AddShortPuts(strategies);
    strategies := AddSpreads(strategies);
  }

  /** The loop adding the long call entries. */
  method AddLongCalls(m: map<string, StrategyConfig>) returns (strategies: map<string, StrategyConfig>)
    ensures strategies == Fill(m, LongCalls, 15)
  {
    strategies := m;
    var moneynessList := MoneynessList;
    var timeList := Repeat(TimeFrames, 5);
    for i := 0 to 15
      invariant strategies == Fill(m, LongCalls, i)
    {
      var code := "C" + NatToString(i + 1);
      strategies := strategies[code := StrategyConfig(code, "Long Call - " + moneynessList[i] + " - " + timeList[i],
        "call", moneynessList[i], timeList[i], "Buy " + moneynessList[i] + " call option, " + timeList[i] + " expiration")];
    }
  }

  /** The loop adding the long put entries. */
  method AddLongPuts(m: map<string, StrategyConfig>) returns (strategies: map<string, StrategyConfig>)
    ensures strategies == Fill(m, LongPuts, 15)
  {
    strategies := m;
    var moneynessList := MoneynessList;
    var timeList := Repeat(TimeFrames, 5);
    for i := 0 to 15
      invariant strategies == Fill(m, LongPuts, i)
    {
      var code := "P" + NatToString(i + 1);
      strategies := strategies[code := StrategyConfig(code, "Long Put - " + moneynessList[i] + " - " + timeList[i],
        "put", moneynessList[i], timeList[i], "Buy " + moneynessList[i] + " put option, " + timeList[i] + " expiration")];
    }
  }

  /** The loop adding the short call entries. */
  method AddShortCalls(m: map<string, StrategyConfig>) returns (strategies: map<string, StrategyConfig>)
    ensures strategies == Fill(m, ShortCalls, 15)
  {
    strategies := m;
    var moneynessList := MoneynessList;
    var timeList := Repeat(TimeFrames, 5);
    for i := 0 to 15
      invariant strategies == Fill(m, ShortCalls, i)
    {
      var code := "SC" + NatToString(i + 1);
      strategies := strategies[code := StrategyConfig(code, "Short Call - " + moneynessList[i] + " - " + timeList[i],
        "short_call", moneynessList[i], timeList[i], "Sell " + moneynessList[i] + " call option, " + timeList[i] + " expiration")];
    }
  }

  /** The loop adding the short put entries. */
  method AddShortPuts(m: map<string, StrategyConfig>) returns (strategies: map<string, StrategyConfig>)
    ensures strategies == Fill(m, ShortPuts, 15)
  {
    strategies := m;
    var moneynessList := MoneynessList;
    var timeList := Repeat(TimeFrames, 5);
    for i := 0 to 15
      invariant strategies == Fill(m, ShortPuts, i)
    {
      var code := "SP" + NatToString(i + 1);
      strategies := strategies[code := StrategyConfig(code, "Short Put - " + moneynessList[i] + " - " + timeList[i],
        "short_put", moneynessList[i], timeList[i], "Sell " + moneynessList[i] + " put option, " + timeList[i] + " expiration")];
    }
  }

  /** The loop adding the spread entries. */
  method AddSpreads(m: map<string, StrategyConfig>) returns (strategies: map<string, StrategyConfig>)
    ensures strategies == Fill(m, Spreads, 24)
  {
    strategies := m;
    var spreadNames := SpreadNames;
    var timeList := Repeat(TimeFrames, 5);
    for i := 0 to 24
      invariant strategies == Fill(m, Spreads, i)
    {
      var code := "S" + NatToString(i + 1);
      var timeFrame := if i < 21 then timeList[i % 3] else timeList[i % 3];
      var config := StrategyConfig(code, spreadNames[i] + " - " + timeFrame,
        "spread", "Mixed", timeFrame, spreadNames[i] + " strategy, " + timeFrame + " expiration");
      assert timeFrame == TimeFrames[i % 3];
      assert code == Code(Spreads, i);
      assert config == Entry(Spreads, i) by { SpreadEntry(i); }
      FillStep(m, Spreads, i + 1);
      strategies := strategies[code := config];
    }
  }

  /** The spread entries in terms of the three time frames. */
  lemma SpreadEntry(i: nat)
    requires i < 24
    ensures var frame := TimeFrames[i % 3];
      Entry(Spreads, i) == StrategyConfig(Code(Spreads, i), SpreadNames[i] + " - " + frame, "spread", "Mixed",
        frame, SpreadNames[i] + " strategy, " + frame + " expiration")
  {
    assert TimeList()[i % 3] == TimeFrames[i % 3];
  }

  /** Total number of entries added by the first `k` loops. */
  function Total(k: nat): nat
    requires k <= 5
  {
    if k == 0 then 0 else Total(k - 1) + Count(FamilyAt(k - 1))
  }

  /** No two entries share a code: the prefix and the number are read back from it. */
  lemma CodeInjective(f: Family, i: nat, g: Family, j: nat)
    ensures Code(f, i) == Code(g, j) ==> f == g && i == j
  {
    NatToStringInjective(i + 1, j + 1);
    var a, b := Code(f, i), Code(g, j);
    if a == b {
      assert a[0] == b[0] && a[1] == b[1];
      if f == g {
        assert a[|Prefix(f)|..] == NatToString(i + 1);
        assert b[|Prefix(g)|..] == NatToString(j + 1);
      }
    }
  }

  /** The codes of the first `n` entries of a family. */
  function Codes(f: Family, n: nat): set<string>
  {
    set i: nat | i < n :: Code(f, i)
  }

  /** The codes of the first `k` families. */
  function StageCodes(k: nat): set<string>
    requires k <= 5
  {
    if k == 0 then {} else StageCodes(k - 1) + Codes(FamilyAt(k - 1), Count(FamilyAt(k - 1)))
  }

  /** The keys of a partly run loop: the table's own and the codes added so far. */
  lemma {:induction false} FillKeys(m: map<string, StrategyConfig>, f: Family, n: nat)
    requires n <= Count(f)
    ensures Fill(m, f, n).Keys == m.Keys + Codes(f, n)
    decreases n
  {
    if n > 0 {
      var code := Code(f, n - 1);
      calc {
        Fill(m, f, n).Keys;
      == { FillStepKeys(m, f, n); }
        Fill(m, f, n - 1).Keys + {code};
      == { FillKeys(m, f, n - 1); }
        m.Keys + Codes(f, n - 1) + {code};
      == { CodesStep(f, n); }
        m.Keys + Codes(f, n);
      }
    }
  }

  /** One iteration adds its own code to the keys. */
  lemma FillStepKeys(m: map<string, StrategyConfig>, f: Family, n: nat)
    requires 0 < n <= Count(f)
    ensures Fill(m, f, n).Keys == Fill(m, f, n - 1).Keys + {Code(f, n - 1)}
  {
  }

  /** One more iteration adds one more code. */
  lemma CodesStep(f: Family, n: nat)
    requires n > 0
    ensures Codes(f, n) == Codes(f, n - 1) + {Code(f, n - 1)}
  {
  }

  /** The keys after `k` loops are the codes of the first `k` families. */
  lemma {:induction false} StageKeys(k: nat)
    requires k <= 5
    ensures Stage(k).Keys == StageCodes(k)
    decreases k
  {
    if k > 0 {
      StageKeys(k - 1);
      FillKeys(Stage(k - 1), FamilyAt(k - 1), Count(FamilyAt(k - 1)));
    }
  }

  /** A code belongs to the first `k` families' codes exactly when its family is among them. */
  lemma {:induction false} InStageCodes(k: nat, f: Family, i: nat)
    requires k <= 5 && i < Count(f)
    ensures Code(f, i) in StageCodes(k) <==> Order(f) < k
    decreases k
  {
    if k > 0 {
      InStageCodes(k - 1, f, i);
      var g := FamilyAt(k - 1);
      if Order(f) == k - 1 {
        assert Code(f, i) in Codes(g, Count(g));
      } else {
        forall j: nat | j < Count(g)
          ensures Code(f, i) != Code(g, j)
        {
          CodeInjective(f, i, g, j);
        }
      }
    }
  }

  /** A key among the first `k` families' codes is the code of some entry. */
  lemma {:induction false} StageCodesWitness(k: nat, key: string)
    requires k <= 5 && key in StageCodes(k)
    ensures exists f: Family, i: nat :: i < Count(f) && key == Code(f, i)
    decreases k
  {
    if key in StageCodes(k - 1) {
      StageCodesWitness(k - 1, key);
    } else {
      var g := FamilyAt(k - 1);
      var i: nat :| i < Count(g) && key == Code(g, i);
    }
  }

  /** Each code added by a loop holds its entry; a later iteration never overwrites an earlier one. */
  lemma FillLookup(m: map<string, StrategyConfig>, f: Family, n: nat, i: nat)
    requires i < n <= Count(f)
    ensures Code(f, i) in Fill(m, f, n) && Fill(m, f, n)[Code(f, i)] == Entry(f, i)
  {
    forall j: nat | i < j < n
      ensures Code(f, j) != Code(f, i)
    {
      CodeInjective(f, j, f, i);
    }
    FillLookupLater(m, f, n, i);
  }

  /** The entry for code `i` survives the iterations after it whose codes differ from it. */
  lemma {:induction false} FillLookupLater(m: map<string, StrategyConfig>, f: Family, n: nat, i: nat)
    requires i < n <= Count(f)
    requires forall j: nat :: i < j < n ==> Code(f, j) != Code(f, i)
    ensures Code(f, i) in Fill(m, f, n) && Fill(m, f, n)[Code(f, i)] == Entry(f, i)
    decreases n
  {
    if i < n - 1 {
      FillLookupLater(m, f, n - 1, i);
      FillStepKeeps(m, f, n, Code(f, i));
    } else {
      FillStepAdds(m, f, n);
    }
  }

  /** One more iteration is one more update of the table. */
  lemma FillStep(m: map<string, StrategyConfig>, f: Family, n: nat)
    requires 0 < n <= Count(f)
    ensures Fill(m, f, n) == Fill(m, f, n - 1)[Code(f, n - 1) := Entry(f, n - 1)]
  {
  }

  /** One iteration stores its own entry under its code. */
  lemma FillStepAdds(m: map<string, StrategyConfig>, f: Family, n: nat)
    requires 0 < n <= Count(f)
    ensures Code(f, n - 1) in Fill(m, f, n) && Fill(m, f, n)[Code(f, n - 1)] == Entry(f, n - 1)
  {
  }

  /** One iteration leaves every other key's value alone. */
  lemma FillStepKeeps(m: map<string, StrategyConfig>, f: Family, n: nat, key: string)
    requires 0 < n <= Count(f) && key in Fill(m, f, n - 1) && key != Code(f, n - 1)
    ensures key in Fill(m, f, n) && Fill(m, f, n)[key] == Fill(m, f, n - 1)[key]
  {
  }

  /** A key the loop does not add keeps its value. */
  lemma {:induction false} FillKeeps(m: map<string, StrategyConfig>, f: Family, n: nat, key: string)
    requires n <= Count(f) && key in m
    requires forall i: nat :: i < n ==> key != Code(f, i)
    ensures key in Fill(m, f, n) && Fill(m, f, n)[key] == m[key]
    decreases n
  {
    if n > 0 {
      FillKeeps(m, f, n - 1, key);
      assert key != Code(f, n - 1);
    }
  }

  /** A loop over `n` fresh codes adds exactly `n` keys. */
  lemma {:induction false} FillSize(m: map<string, StrategyConfig>, f: Family, n: nat)
    requires n <= Count(f)
    requires forall i: nat :: i < n ==> Code(f, i) !in m
    ensures |Fill(m, f, n)| == |m| + n
    decreases n
  {
    if n > 0 {
      FillSize(m, f, n - 1);
      FillKeys(m, f, n - 1);
      forall i: nat | i < n - 1
        ensures Code(f, n - 1) != Code(f, i)
      {
        CodeInjective(f, n - 1, f, i);
      }
      var key := Code(f, n - 1);
      assert key !in Codes(f, n - 1);
      assert key !in m;
      assert key !in Fill(m, f, n - 1).Keys;
      FillStepGrows(m, f, n);
    }
  }

  /** An iteration whose code is new adds one key. */
  lemma FillStepGrows(m: map<string, StrategyConfig>, f: Family, n: nat)
    requires 0 < n <= Count(f) && Code(f, n - 1) !in Fill(m, f, n - 1)
    ensures |Fill(m, f, n)| == |Fill(m, f, n - 1)| + 1
  {
  }

  /** One family's loop leaves another family's entries as they were. */
  lemma FillKeepsOther(m: map<string, StrategyConfig>, g: Family, f: Family, i: nat)
    requires f != g && i < Count(f) && Code(f, i) in m
    ensures Code(f, i) in Fill(m, g, Count(g)) && Fill(m, g, Count(g))[Code(f, i)] == m[Code(f, i)]
  {
    forall j: nat | j < Count(g)
      ensures Code(f, i) != Code(g, j)
    {
      CodeInjective(f, i, g, j);
    }
    FillKeeps(m, g, Count(g), Code(f, i));
  }

  /** After `k` loops, each earlier family's code holds its entry. */
  lemma {:induction false} StageLookup(k: nat, f: Family, i: nat)
    requires Order(f) < k <= 5 && i < Count(f)
    ensures Code(f, i) in Stage(k) && Stage(k)[Code(f, i)] == Entry(f, i)
    decreases k
  {
    if Order(f) == k - 1 {
      StageAdds(k, f, i);
    } else {
      StageLookup(k - 1, f, i);
      StageKeeps(k, f, i);
    }
  }

  /** The `k`-th loop stores its own family's entries. */
  lemma StageAdds(k: nat, f: Family, i: nat)
    requires Order(f) == k - 1 && 0 < k <= 5 && i < Count(f)
    ensures Code(f, i) in Stage(k) && Stage(k)[Code(f, i)] == Entry(f, i)
  {
    StageStep(k);
    FamilyAtOrder(f);
    FillLookup(Stage(k - 1), f, Count(f), i);
  }

  /** The `k`-th loop keeps the entries of the families before it. */
  lemma StageKeeps(k: nat, f: Family, i: nat)
    requires Order(f) < k - 1 && 0 < k <= 5 && i < Count(f)
    requires Code(f, i) in Stage(k - 1)
    ensures Code(f, i) in Stage(k) && Stage(k)[Code(f, i)] == Stage(k - 1)[Code(f, i)]
  {
    var g := FamilyAt(k - 1);
    StageStep(k);
    assert Order(g) == k - 1 != Order(f);
    FillKeepsOther(Stage(k - 1), g, f, i);
  }

  /** The `k`-th loop runs on the table the earlier loops left. */
  lemma StageStep(k: nat)
    requires 0 < k <= 5
    ensures Stage(k) == Fill(Stage(k - 1), FamilyAt(k - 1), Count(FamilyAt(k - 1)))
  {
  }

  /** After `k` loops the table holds exactly the entries added so far. */
  lemma {:induction false} StageSize(k: nat)
    requires k <= 5
    ensures |Stage(k)| == Total(k)
    decreases k
  {
    if k > 0 {
      StageSize(k - 1);
      StageKeys(k - 1);
      var f := FamilyAt(k - 1);
      forall i: nat | i < Count(f)
        ensures Code(f, i) !in Stage(k - 1)
      {
        InStageCodes(k - 1, f, i);
      }
      FillSize(Stage(k - 1), f, Count(f));
    }
  }

  /** The catalog's keys are exactly C1-C15, P1-P15, SC1-SC15, SP1-SP15 and S1-S24. */
  lemma CatalogKeys(key: string)
    ensures key in Catalog() <==> exists f: Family, i: nat :: i < Count(f) && key == Code(f, i)
  {
    StageKeys(5);
    if key in Catalog() {
      StageCodesWitness(5, key);
    }
    if exists f: Family, i: nat :: i < Count(f) && key == Code(f, i) {
      var f: Family, i: nat :| i < Count(f) && key == Code(f, i);
      InStageCodes(5, f, i);
    }
  }

  /** Every code of every family holds that family's entry. */
  lemma CatalogLookup(f: Family, i: nat)
    requires i < Count(f)
    ensures Code(f, i) in Catalog() && Catalog()[Code(f, i)] == Entry(f, i)
  {
    StageLookup(5, f, i);
  }

  /** The catalog has 84 entries. */
  lemma CatalogSize()
    ensures |Catalog()| == 84
  {
    StageSize(5);
  }

  /** Each entry's fields: its code is its key, the family fixes the type, the
      time frame cycles Near, Medium, Long, the single-option entries come in
      moneyness groups of three, and the spreads are "Mixed" and named after
      `spread_names`. */
  lemma EntryFields(f: Family, i: nat)
    requires i < Count(f)
    ensures Entry(f, i).code == Code(f, i)
    ensures Entry(f, i).strategyType == StrategyType(f)
    ensures Entry(f, i).timeFrame == TimeFrames[i % 3]
    ensures f != Spreads ==> Entry(f, i).moneyness == MoneynessGroups[i / 3] && IsTabulated(Entry(f, i).moneyness)
    ensures f == Spreads ==> Entry(f, i).moneyness == "Mixed"
                             && Entry(f, i).name == SpreadNames[i] + " - " + TimeFrames[i % 3]
  {
    if f != Spreads {
      assert MoneynessList[i] == MoneynessGroups[i / 3];
    }
  }

  /** Which of the catalog's type strings count as calls when striking. */
  lemma CatalogTypes()
    ensures IsCallType("call") && IsCallType("short_call")
    ensures !IsCallType("put") && !IsCallType("short_put")
  {
    LowerTypes();
    assert "call" == "call" + "" && "short_call" == "short_" + "call";
    ContainsPrefix("call", "");
    ContainsSuffix("short_", "call");
    MissingCharNotContained("put", "call", 'c');
    MissingCharNotContained("short_put", "call", 'c');
  }

  /** The catalog's type strings are already lower case. */
  lemma LowerTypes()
    ensures Lower("call") == "call" && Lower("short_call") == "short_call"
    ensures Lower("put") == "put" && Lower("short_put") == "short_put"
  {
  }

  /** Every single-option entry takes its strike from the table: calls (long
      or short) off the call column, puts off the put column, so the n-th call
      and the n-th put are struck symmetrically about the base price. */
  lemma CatalogStrikes(i: nat, basePrice: real)
    requires i < 15
    ensures StrikePrice(Entry(ShortCalls, i), basePrice) == StrikePrice(Entry(LongCalls, i), basePrice)
    ensures StrikePrice(Entry(ShortPuts, i), basePrice) == StrikePrice(Entry(LongPuts, i), basePrice)
    ensures StrikePrice(Entry(LongCalls, i), basePrice) + StrikePrice(Entry(LongPuts, i), basePrice) == 2.0 * basePrice
  {
    EntryFields(LongCalls, i);
    EntryFields(LongPuts, i);
    EntryFields(ShortCalls, i);
    EntryFields(ShortPuts, i);
    CatalogMultipliers(MoneynessGroups[i / 3]);
    StrikeRelations(Entry(ShortCalls, i), Entry(LongCalls, i), basePrice);
    StrikeRelations(Entry(ShortPuts, i), Entry(LongPuts, i), basePrice);
    StrikeRelations(Entry(LongCalls, i), Entry(LongPuts, i), basePrice);
  }

  /** The catalog's four single-option types against the table. */
  lemma CatalogMultipliers(moneyness: string)
    ensures StrikeMultiplier("short_call", moneyness) == StrikeMultiplier("call", moneyness)
    ensures StrikeMultiplier("short_put", moneyness) == StrikeMultiplier("put", moneyness)
    ensures StrikeMultiplier("call", moneyness) + StrikeMultiplier("put", moneyness) == 2.0
  {
    CatalogTypes();
    MultipliersMirrored("call", "put", moneyness);
    MultipliersAgree("call", "short_call", moneyness);
    MultipliersAgree("put", "short_put", moneyness);
  }

  /** Two types on the same side of the table get the same multiplier. */
  lemma MultipliersAgree(a: string, b: string, moneyness: string)
    requires IsCallType(a) == IsCallType(b)
    ensures StrikeMultiplier(a, moneyness) == StrikeMultiplier(b, moneyness)
  {
  }

  /** Along the calls C1-C15 the strike never falls, and rises from one
      moneyness group to the next. */
  lemma CallStrikesAscend(i: nat, j: nat, basePrice: real)
    requires i < j < 15 && basePrice > 0.0
    ensures StrikePrice(Entry(LongCalls, i), basePrice) <= StrikePrice(Entry(LongCalls, j), basePrice)
    ensures i / 3 < j / 3 ==> StrikePrice(Entry(LongCalls, i), basePrice) < StrikePrice(Entry(LongCalls, j), basePrice)
  {
    EntryFields(LongCalls, i);
    EntryFields(LongCalls, j);
    CallGroupsAscend(i / 3, j / 3);
    StrikeOrder(Entry(LongCalls, i), Entry(LongCalls, j), basePrice);
  }

  /** The call multiplier along the moneyness groups, in list order. */
  lemma CallGroupsAscend(g: nat, h: nat)
    requires g <= h < 5
    ensures StrikeMultiplier("call", MoneynessGroups[g]) <= StrikeMultiplier("call", MoneynessGroups[h])
    ensures g < h ==> StrikeMultiplier("call", MoneynessGroups[g]) < StrikeMultiplier("call", MoneynessGroups[h])
  {
    CatalogTypes();
    CallMultipliersAscend("call");
  }


  /** None of the time frames holds the letters the spread words are told apart by. */
  lemma TimeFramesPlain(k: nat)
    requires k < 3
    ensures PlainTail(TimeFrames[k])
  {
    assert TimeFrames[k] == "Near" || TimeFrames[k] == "Medium" || TimeFrames[k] == "Long";
  }

  /** Which of the four words each spread name, followed by a plain tail, contains. */
  lemma SpreadNameWords(i: nat, tail: string)
    requires i < 24 && PlainTail(tail)
    ensures var name := SpreadNames[i] + " - " + tail;
      (Contains(name, "Call") <==> i < 6)
      && (Contains(name, "Put") <==> 6 <= i < 12)
      && (Contains(name, "Bull") <==> i < 3 || 6 <= i < 9)
      && (Contains(name, "Bear") <==> 3 <= i < 6 || 9 <= i < 12)
      && (i < 3 ==> Contains(name, "Bull Call"))
      && (3 <= i < 6 ==> Contains(name, "Bear Call"))
      && (6 <= i < 9 ==> Contains(name, "Bull Put"))
      && (9 <= i < 12 ==> Contains(name, "Bear Put"))
  {
    if i < 3 {
      assert SpreadNames[i] == "Bull Call Spread";
      BullCallWords(tail);
    } else if i < 6 {
      assert SpreadNames[i] == "Bear Call Spread";
      BearCallWords(tail);
    } else if i < 9 {
      assert SpreadNames[i] == "Bull Put Spread";
      BullPutWords(tail);
    } else if i < 12 {
      assert SpreadNames[i] == "Bear Put Spread";
      BearPutWords(tail);
    } else if i < 14 {
      assert SpreadNames[i] == "Calendar Spread";
      CalendarWords(tail);
    } else if i < 16 {
      assert SpreadNames[i] == "Ratio Spread";
      RatioWords(tail);
    } else if i < 18 {
      assert SpreadNames[i] == "Back Ratio Spread";
      BackRatioWords(tail);
    } else if i < 21 {
      assert SpreadNames[i] == "Iron Condor";
      IronCondorWords(tail);
    } else {
      assert SpreadNames[i] == "Butterfly Spread";
      ButterflyWords(tail);
    }
  }

  /** Which of the four words each catalog spread name (S1-S24) contains. */
  lemma SpreadEntryWords(i: nat)
    requires i < 24
    ensures var name := Entry(Spreads, i).name;
      (Contains(name, "Call") <==> i < 6)
      && (Contains(name, "Put") <==> 6 <= i < 12)
      && (Contains(name, "Bull") <==> i < 3 || 6 <= i < 9)
      && (Contains(name, "Bear") <==> 3 <= i < 6 || 9 <= i < 12)
      && (i < 3 ==> Contains(name, "Bull Call"))
      && (3 <= i < 6 ==> Contains(name, "Bear Call"))
      && (6 <= i < 9 ==> Contains(name, "Bull Put"))
      && (9 <= i < 12 ==> Contains(name, "Bear Put"))
  {
    EntryFields(Spreads, i);
    TimeFramesPlain(i % 3);
    SpreadNameWords(i, TimeFrames[i % 3]);
  }

  /** How the spread class reads each catalog spread name: S1-S6 hold calls,
      S1-S3 and S10-S12 are debits, S4-S6 and S10-S12 buy the higher strike,
      the four named kinds price and pay off with the same sign, and every
      other name (S13-S24) falls through to the default put layout. */
  lemma CatalogSpreadKinds(i: nat)
    requires i < 24
    ensures var name := Entry(Spreads, i).name;
      (Spread.UsesCalls(name) <==> i < 6)
      && (Spread.IsDebit(name) <==> i < 3 || 9 <= i < 12)
      && (Spread.BearLayout(name) <==> 3 <= i < 6 || 9 <= i < 12)
      && (i < 12 ==> Spread.DebitShaped(name) == Spread.IsDebit(name))
      && (12 <= i ==> !Contains(name, "Call") && !Contains(name, "Bull") && !Contains(name, "Bear Put"))
  {
    var name := Entry(Spreads, i).name;
    SpreadEntryWords(i);
    Spread.LabelWords(name);
  }

  /** At a positive base price, the catalog's bear spreads (S4-S6, S10-S12)
      buy the higher strike and every other spread the lower one. */
  lemma CatalogSpreadStrikes(i: nat, basePrice: real)
    requires i < 24 && basePrice > 0.0
    ensures var s := Spread.NewSpread(Entry(Spreads, i), basePrice);
      s.longStrike > s.shortStrike <==> 3 <= i < 6 || 9 <= i < 12
  {
    CatalogSpreadKinds(i);
  }

  /** The bear call spread S(i+4) pays the bull call spread S(i+1)'s payoff negated. */
  lemma CatalogCallSpreadsMirror(m: MathLib, i: nat, basePrice: real, spots: seq<real>, timeToExp: Option<real>)
    requires i < 3 && Sound(m)
    ensures Spread.Payoff(m, Spread.NewSpread(Entry(Spreads, i + 3), basePrice), spots, timeToExp)
            == Payoffs.Negated(Spread.Payoff(m, Spread.NewSpread(Entry(Spreads, i), basePrice), spots, timeToExp))
  {
    CallSpreadPair(i);
    Spread.NewCallSpreadsMirror(m, Entry(Spreads, i), Entry(Spreads, i + 3), basePrice, spots, timeToExp);
  }

  /** S(i+1) and S(i+4) are a bull and a bear call spread on the same time frame. */
  lemma CallSpreadPair(i: nat)
    requires i < 3
    ensures var bull, bear := Entry(Spreads, i), Entry(Spreads, i + 3);
      bull.timeFrame == bear.timeFrame && Contains(bull.name, "Bull Call")
      && Contains(bear.name, "Bear Call") && !Contains(bear.name, "Bull") && !Contains(bear.name, "Bear Put")
  {
    var bull, bear := Entry(Spreads, i), Entry(Spreads, i + 3);
    assert bull.timeFrame == bear.timeFrame by {
      EntryFields(Spreads, i);
      EntryFields(Spreads, i + 3);
    }
    assert Contains(bull.name, "Bull Call") by {
      SpreadEntryWords(i);
    }
    assert Contains(bear.name, "Bear Call") && !Contains(bear.name, "Bull") && !Contains(bear.name, "Bear Put") by {
      SpreadEntryWords(i + 3);
      Spread.LabelWords(bear.name);
    }
  }

  /** The bull put spread S(i+7) pays the bear put spread S(i+10)'s payoff negated. */
  lemma CatalogPutSpreadsMirror(m: MathLib, i: nat, basePrice: real, spots: seq<real>, timeToExp: Option<real>)
    requires 6 <= i < 9 && Sound(m)
    ensures Spread.Payoff(m, Spread.NewSpread(Entry(Spreads, i), basePrice), spots, timeToExp)
            == Payoffs.Negated(Spread.Payoff(m, Spread.NewSpread(Entry(Spreads, i + 3), basePrice), spots, timeToExp))
  {
    PutSpreadPair(i);
    Spread.NewPutSpreadsMirror(m, Entry(Spreads, i), Entry(Spreads, i + 3), basePrice, spots, timeToExp);
  }

  /** S(i+1) and S(i+4) are a bull and a bear put spread on the same time frame. */
  lemma PutSpreadPair(i: nat)
    requires 6 <= i < 9
    ensures var bull, bear := Entry(Spreads, i), Entry(Spreads, i + 3);
      bull.timeFrame == bear.timeFrame
      && Contains(bull.name, "Bull Put") && !Contains(bull.name, "Call") && !Contains(bull.name, "Bear Put")
      && Contains(bear.name, "Bear Put") && !Contains(bear.name, "Call") && !Contains(bear.name, "Bull")
  {
    var bull, bear := Entry(Spreads, i), Entry(Spreads, i + 3);
    assert bull.timeFrame == bear.timeFrame by {
      EntryFields(Spreads, i);
      EntryFields(Spreads, i + 3);
    }
    assert Contains(bull.name, "Bull Put") && !Contains(bull.name, "Call") && !Contains(bull.name, "Bear Put") by {
      SpreadEntryWords(i);
      Spread.LabelWords(bull.name);
    }
    assert Contains(bear.name, "Bear Put") && !Contains(bear.name, "Call") && !Contains(bear.name, "Bull") by {
      SpreadEntryWords(i + 3);
    }
  }

  /** The calendar, ratio, back-ratio and butterfly spreads of the catalog
      (S13-S18, S22-S24) are built as credit put spreads whose payoff stays at
      or below the negated initial cost at every spot. */
  lemma CatalogDefaultSpreadsLose(m: MathLib, i: nat, basePrice: real, spots: seq<real>, timeToExp: Option<real>)
    requires 12 <= i < 24 && basePrice > 0.0
    requires Spread.Payoff(m, Spread.NewSpread(Entry(Spreads, i), basePrice), spots, timeToExp).Ok?
    ensures var s := Spread.NewSpread(Entry(Spreads, i), basePrice);
      !Spread.IsDebit(s.config.name) && !Spread.UsesCalls(s.config.name) && s.longStrike < s.shortStrike
      && forall j :: 0 <= j < |spots| ==> Spread.Payoff(m, s, spots, timeToExp).value[j] <= -Spread.InitialCost(m, s).value
  {
    CatalogSpreadKinds(i);
    Spread.DefaultSpreadNeverRecoversCost(m, Spread.NewSpread(Entry(Spreads, i), basePrice), spots, timeToExp);
  }

  /** A built strategy of any kind. */
  datatype Strategy =
    | LongCallStrategy(option: OptionStrategy)
    | LongPutStrategy(option: OptionStrategy)
    | ShortCallStrategy(option: OptionStrategy)
    | ShortPutStrategy(option: OptionStrategy)
    | SpreadStrategy(spread: Spread.SpreadStrategy)
    | IronCondorStrategy(condor: IronCondor.IronCondorStrategy)
  {
    function Config(): StrategyConfig
    {
      match this
      case SpreadStrategy(s) => s.config
      case IronCondorStrategy(s) => s.config
      case _ => option.config
    }

    function BasePrice(): real
    {
      match this
      case SpreadStrategy(s) => s.basePrice
      case IronCondorStrategy(s) => s.basePrice
      case _ => option.basePrice
    }

    /** The strategy is what its class's constructor makes of its config and base price. */
    predicate IsSetUp()
    {
      match this
      case SpreadStrategy(s) => Spread.IsSetUp(s)
      case IronCondorStrategy(s) => IronCondor.IsSetUp(s)
      case _ => Base.IsSetUp(option)
    }
  }

  /** The strategy types `create_strategy` knows. */
  predicate KnownType(strategyType: string)
  {
    strategyType == "call" || strategyType == "put" || strategyType == "short_call"
    || strategyType == "short_put" || strategyType == "spread"
  }

  /** The codes built as iron condors. */
  predicate IsCondorCode(code: string)
  {
    code == "S19" || code == "S20" || code == "S21"
  }

  /** The factory: the table built once by its constructor, then only read. */
  datatype StrategyFactory = StrategyFactory(strategies: map<string, StrategyConfig>)
  {
    /** `create_strategy`. */
    function CreateStrategy(code: string, basePrice: real): (r: Option<Strategy>)
      // an unknown code, or a stored type it does not know, gives None
      ensures r.Some? <==> code in strategies && KnownType(strategies[code].strategyType)
      // otherwise a freshly set-up strategy on the stored config and the given base price
      ensures r.Some? ==> r.value.Config() == strategies[code] && r.value.BasePrice() == basePrice && r.value.IsSetUp()
      // of the kind the stored type names; a spread is an iron condor exactly for S19-S21
      ensures r.Some? ==> (r.value.LongCallStrategy? <==> strategies[code].strategyType == "call")
      ensures r.Some? ==> (r.value.LongPutStrategy? <==> strategies[code].strategyType == "put")
      ensures r.Some? ==> (r.value.ShortCallStrategy? <==> strategies[code].strategyType == "short_call")
      ensures r.Some? ==> (r.value.ShortPutStrategy? <==> strategies[code].strategyType == "short_put")
      ensures r.Some? ==> (r.value.IronCondorStrategy? <==> strategies[code].strategyType == "spread" && IsCondorCode(code))
      ensures r.Some? ==> (r.value.SpreadStrategy? <==> strategies[code].strategyType == "spread" && !IsCondorCode(code))
    {
      if code !in strategies then None
      else
        var config := strategies[code];
        if config.strategyType == "call" then Some(LongCallStrategy(NewOptionStrategy(config, basePrice)))
        else if config.strategyType == "put" then Some(LongPutStrategy(NewOptionStrategy(config, basePrice)))
        else if config.strategyType == "short_call" then Some(ShortCallStrategy(NewOptionStrategy(config, basePrice)))
        else if config.strategyType == "short_put" then Some(ShortPutStrategy(NewOptionStrategy(config, basePrice)))
        else if config.strategyType == "spread" then
          if code in ["S19", "S20", "S21"] then Some(IronCondorStrategy(IronCondor.NewIronCondor(config, basePrice)))
          else Some(SpreadStrategy(Spread.NewSpread(config, basePrice)))
        else None
    }

    /** `list_strategies`: the codes in ascending order, each once. */
    function ListStrategies(): (r: seq<string>)
      ensures |r| == |strategies|
      ensures forall code :: code in r <==> code in strategies
      ensures forall i, j :: 0 <= i < j < |r| ==> Below(r[i], r[j])
    {
      Sorted(strategies.Keys)
    }

    /** `get_strategy_info`. */
    function GetStrategyInfo(code: string): (r: Option<StrategyConfig>)
      ensures r.Some? <==> code in strategies
      ensures r.Some? ==> r.value == strategies[code]
    {
      if code in strategies then Some(strategies[code]) else None
    }
  }

  /** `StrategyFactory.__init__`. */
  method NewStrategyFactory() returns (factory: StrategyFactory)
    ensures factory.strategies == Catalog()
  {
    var strategies := InitializeStrategies();
    factory := StrategyFactory(strategies);
  }

  /** The decimal forms of 19, 20 and 21. */
  lemma CondorNumerals()
    ensures NatToString(19) == "19" && NatToString(20) == "20" && NatToString(21) == "21"
  {
    assert NatToString(1) == "1" && NatToString(2) == "2";
    assert NatToString(19) == NatToString(1) + [Digit(9)];
    assert NatToString(20) == NatToString(2) + [Digit(0)];
    assert NatToString(21) == NatToString(2) + [Digit(1)];
  }

  /** Strings with a common one-character head are equal exactly when their tails are. */
  lemma HeadCancel(c: string, x: string, y: string)
    requires |c| == 1
    ensures c + x == c + y <==> x == y
  {
    if c + x == c + y {
      assert x == (c + x)[1..] && y == (c + y)[1..];
    }
  }

  /** Of the spread codes, exactly S19, S20 and S21 are iron condor codes. */
  lemma CondorCodes(i: nat)
    requires i < 24
    ensures IsCondorCode(Code(Spreads, i)) <==> 18 <= i <= 20
  {
    CondorNumerals();
    NatToStringInjective(i + 1, 19);
    NatToStringInjective(i + 1, 20);
    NatToStringInjective(i + 1, 21);
    var tail := NatToString(i + 1);
    assert Code(Spreads, i) == "S" + tail;
    assert "S19" == "S" + "19" && "S20" == "S" + "20" && "S21" == "S" + "21";
    HeadCancel("S", tail, "19");
    HeadCancel("S", tail, "20");
    HeadCancel("S", tail, "21");
  }

  /** Every catalog code builds a strategy on its own entry: the single-option
      codes by their family, S19-S21 as iron condors, the other spread codes as
      vertical spreads. */
  lemma CatalogDispatch(f: Family, i: nat, basePrice: real)
    requires i < Count(f)
    ensures StrategyFactory(Catalog()).CreateStrategy(Code(f, i), basePrice).Some?
    ensures StrategyFactory(Catalog()).CreateStrategy(Code(f, i), basePrice).value.Config() == Entry(f, i)
    ensures f == LongCalls <==> StrategyFactory(Catalog()).CreateStrategy(Code(f, i), basePrice).value.LongCallStrategy?
    ensures f == LongPuts <==> StrategyFactory(Catalog()).CreateStrategy(Code(f, i), basePrice).value.LongPutStrategy?
    ensures f == ShortCalls <==> StrategyFactory(Catalog()).CreateStrategy(Code(f, i), basePrice).value.ShortCallStrategy?
    ensures f == ShortPuts <==> StrategyFactory(Catalog()).CreateStrategy(Code(f, i), basePrice).value.ShortPutStrategy?
    ensures f == Spreads && 18 <= i <= 20 <==> StrategyFactory(Catalog()).CreateStrategy(Code(f, i), basePrice).value.IronCondorStrategy?
    ensures f == Spreads && !(18 <= i <= 20) <==> StrategyFactory(Catalog()).CreateStrategy(Code(f, i), basePrice).value.SpreadStrategy?
  {
    CatalogLookup(f, i);
    EntryFields(f, i);
    if f == Spreads {
      CondorCodes(i);
    }
  }

  /** Every catalog code starts with 'C', 'P' or 'S'. */
  lemma CodeHead(f: Family, i: nat)
    ensures |Code(f, i)| > 0 && (Code(f, i)[0] == 'C' || Code(f, i)[0] == 'P' || Code(f, i)[0] == 'S')
  {
    assert Code(f, i)[0] == Prefix(f)[0];
  }

  /** A code that is no family's code builds nothing and has no info. */
  lemma UnknownCodes(code: string, basePrice: real)
    requires forall f: Family, i: nat :: i < Count(f) ==> code != Code(f, i)
    ensures StrategyFactory(Catalog()).CreateStrategy(code, basePrice) == None
    ensures StrategyFactory(Catalog()).GetStrategyInfo(code) == None
  {
    assert code !in Catalog() by {
      CatalogKeys(code);
    }
  }

  /** A code not starting with 'C', 'P' or 'S', such as "INVALID", is no family's code. */
  lemma ForeignHeadIsNoCode(code: string)
    requires |code| == 0 || (code[0] != 'C' && code[0] != 'P' && code[0] != 'S')
    ensures forall f: Family, i: nat :: i < Count(f) ==> code != Code(f, i)
  {
    forall f: Family, i: nat | i < Count(f)
      ensures code != Code(f, i)
    {
      CodeHead(f, i);
    }
  }

  /** A code numbered past its family's last entry, such as "C16" or "S25", is no family's code. */
  lemma PastEndIsNoCode(f: Family, i: nat)
    requires i >= Count(f)
    ensures forall g: Family, j: nat :: j < Count(g) ==> Code(f, i) != Code(g, j)
  {
    forall g: Family, j: nat | j < Count(g)
      ensures Code(f, i) != Code(g, j)
    {
      CodeInjective(f, i, g, j);
    }
  }

  /** The factory's listing of the catalog: all 84 codes, ascending, each once. */
  lemma CatalogListing()
    ensures |StrategyFactory(Catalog()).ListStrategies()| == 84
    ensures forall f: Family, i: nat :: i < Count(f) ==> Code(f, i) in StrategyFactory(Catalog()).ListStrategies()
  {
    CatalogSize();
    forall f: Family, i: nat | i < Count(f)
      ensures Code(f, i) in Catalog()
    {
      CatalogLookup(f, i);
    }
  }

  /** The info of a catalog code is its entry, whose code is that code. */
  lemma CatalogInfo(f: Family, i: nat)
    requires i < Count(f)
    ensures StrategyFactory(Catalog()).GetStrategyInfo(Code(f, i)) == Some(Entry(f, i))
    ensures Entry(f, i).code == Code(f, i)
  {
    CatalogLookup(f, i);
    EntryFields(f, i);
  }
}
