/** opinion-hub-frontend/components/InsightsChart.tsx: the chart of one
    survey's decrypted counts. Each choice gets an entry with its count and
    share, the largest count is the winner, and entries cycle through six
    colours. */
module InsightsChart {
  import opened Base
  import Utils

  datatype ChartEntry = ChartEntry(name: string, value: nat, percentage: int)

  /** `results[index] || 0`: a missing count reads as 0. */
  function ResultAt(results: seq<nat>, index: nat): nat {
    if index < |results| then results[index] else 0
  }

  /** `chartData` (lines 25-30): one entry per choice, in choice order. */
  function ChartData(choices: seq<string>, results: seq<nat>, totalResponses: nat): (r: seq<ChartEntry>)
    ensures |r| == |choices|
    ensures forall i :: 0 <= i < |r| ==>
      && r[i].name == choices[i]
      && r[i].value == ResultAt(results, i)
      && r[i].percentage == Utils.CalculatePercentage(ResultAt(results, i), totalResponses)
  {
    seq(|choices|, i requires 0 <= i < |choices| =>
      ChartEntry(choices[i], ResultAt(results, i), Utils.CalculatePercentage(ResultAt(results, i), totalResponses)))
  }

  // ---------------------------------------------------------------------
  // maxValue and winningChoice (lines 32-33)

  /** `Math.max(...results)` for non-empty results. */
  function MaxValue(results: seq<nat>): (m: nat)
    requires |results| > 0
    ensures m in results
    ensures forall i :: 0 <= i < |results| ==> results[i] <= m
  {
    if |results| == 1 then results[0]
    else
      var rest := MaxValue(results[1..]);
      if results[0] >= rest then results[0] else rest
  }

  /** `s.indexOf(v)`: the first index holding `v`, or -1. */
  function IndexOf(s: seq<nat>, v: nat): (k: int)
    ensures -1 <= k < |s|
    ensures k >= 0 ==> s[k] == v && forall j :: 0 <= j < k ==> s[j] != v
    ensures k == -1 <==> v !in s
  {
    if s == [] then -1
    else if s[0] == v then 0
    else
      var k := IndexOf(s[1..], v);
      if k == -1 then -1 else k + 1
  }

  /** The index the winner is read from: the first index with the largest
      count; every earlier count is strictly smaller. */
  function WinningIndex(results: seq<nat>): (k: nat)
    requires |results| > 0
    ensures k < |results| && results[k] == MaxValue(results)
    ensures forall j :: 0 <= j < k ==> results[j] < MaxValue(results)
  {
    IndexOf(results, MaxValue(results))
  }

  /** `choices[results.indexOf(maxValue)]`: undefined when there are more
      counts than choices and the winner is among the extra ones. */
  function WinningChoice(choices: seq<string>, results: seq<nat>): (r: Option<string>)
    requires |results| > 0
    ensures r.Some? <==> WinningIndex(results) < |choices|
    ensures r.Some? ==> r.value == choices[WinningIndex(results)]
  {
    var k := WinningIndex(results);
    if k < |choices| then Some(choices[k]) else None
  }

  /** `item.value === maxValue` (line 195). */
  predicate IsWinner(entry: ChartEntry, results: seq<nat>)
    requires |results| > 0
  {
    entry.value == MaxValue(results)
  }

  /** Every entry with the largest count wears the badge, ties included; the
      winning choice's entry is one of them; when nobody answered, every
      choice is marked. */
  lemma WinnerMarking(choices: seq<string>, results: seq<nat>, totalResponses: nat)
    requires |results| > 0
    ensures var data := ChartData(choices, results, totalResponses);
      forall i :: 0 <= i < |choices| && i < |results| ==> (IsWinner(data[i], results) <==> results[i] == MaxValue(results))
    ensures var data := ChartData(choices, results, totalResponses);
      WinningIndex(results) < |choices| ==> IsWinner(data[WinningIndex(results)], results)
    ensures var data := ChartData(choices, results, totalResponses);
      MaxValue(results) == 0 ==> forall i :: 0 <= i < |choices| ==> IsWinner(data[i], results)
  {
  }

  // ---------------------------------------------------------------------
  // COLORS (lines 35-42), indexed at lines 149 and 192

  const Colors: seq<string> := ["#0ea5e9", "#eab308", "#8b5cf6", "#ef4444", "#10b981", "#f59e0b"]

  function ColorOf(index: nat): (c: string)
    ensures c in Colors
  {
    Colors[index % |Colors|]
  }

  /** The six colours are distinct, so entries less than six apart never
      share a colour, and the seventh entry repeats the first. */
  lemma ColorsCycle(i: nat, j: nat)
    ensures ColorOf(i + 6) == ColorOf(i)
    ensures i % 6 != j % 6 ==> ColorOf(i) != ColorOf(j)
  {
    assert Colors[0][1] == '0' && Colors[1][2] == 'a' && Colors[2][1] == '8';
    assert Colors[3][2] == 'f' && Colors[4][1] == '1' && Colors[5][1] == 'f';
    assert Colors[1][1] == 'e' && Colors[3][1] == 'e' && Colors[5][2] == '5';
  }
}
