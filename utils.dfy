/** opinion-hub-frontend/lib/utils.ts: address truncation, the status colour
    table, integer percentages, gradient cycling and the "Expired" test of the
    time-remaining label. */
module Utils {
  import opened Base

  // ---------------------------------------------------------------------
  // Rounding

  /** `Math.round(a / b)` for a positive divisor: the integer nearest to
      a / b, halves rounded up. Dafny's `/` on int floors for a positive
      divisor, so this is exact for negative `a` as well. */
  function RoundedQuotient(a: int, b: int): (r: int)
    requires b > 0
    ensures 2 * a - b < 2 * b * r <= 2 * a + b
    ensures a >= 0 ==> r >= 0
  {
    var r := (2 * a + b) / (2 * b);
    assert 2 * b * r <= 2 * a + b < 2 * b * r + 2 * b by {
      var q := 2 * a + b;
      assert q == (2 * b) * (q / (2 * b)) + q % (2 * b);
    }
    r
  }

  /** The quotient rounded this way is the only integer within half a unit
      (ties going up), so any other definition meeting the same bounds agrees. */
  lemma RoundedQuotientUnique(a: int, b: int, r': int)
    requires b > 0
    requires 2 * a - b < 2 * b * r' <= 2 * a + b
    ensures r' == RoundedQuotient(a, b)
  {
    var r := RoundedQuotient(a, b);
    if r' < r {
      MulMonotone(2 * b, r', r - 1);
    } else if r' > r {
      MulMonotone(2 * b, r, r' - 1);
    }
  }

  lemma MulMonotone(k: int, x: int, y: int)
    requires k >= 0 && x <= y
    ensures k * x <= k * y
  {
  }

  // ---------------------------------------------------------------------
  // calculatePercentage (utils.ts:42-45)

  /** `calculatePercentage(value, total)`: 0 for a zero total, otherwise
      100 * value / total rounded half up. */
  function CalculatePercentage(value: nat, total: nat): (r: int)
    ensures total == 0 ==> r == 0
    ensures total > 0 ==> 2 * (100 * value) - total < 2 * total * r <= 2 * (100 * value) + total
  {
    if total == 0 then 0 else RoundedQuotient(100 * value, total)
  }

  /** A share of a total is a percentage between 0 and 100, and the whole of
      a non-zero total is exactly 100. */
  lemma PercentageBounds(value: nat, total: nat)
    requires value <= total
    ensures 0 <= CalculatePercentage(value, total) <= 100
    ensures total > 0 && value == total ==> CalculatePercentage(value, total) == 100
  {
    if total > 0 {
      var r := CalculatePercentage(value, total);
      if r < 0 {
        MulMonotone(2 * total, r, -1);
      }
      if r > 100 {
        MulMonotone(2 * total, 101, r);
        MulMonotone(200, value, total);
      }
      if value == total {
        RoundedQuotientUnique(100 * value, total, 100);
      }
    }
  }

  /** A larger share never gets a smaller percentage. */
  lemma PercentageMonotone(v1: nat, v2: nat, total: nat)
    requires v1 <= v2
    ensures CalculatePercentage(v1, total) <= CalculatePercentage(v2, total)
  {
    if total > 0 {
      var r1, r2 := CalculatePercentage(v1, total), CalculatePercentage(v2, total);
      if r1 > r2 {
        MulMonotone(2 * total, r2 + 1, r1);
        MulMonotone(200, v1, v2);
      }
    }
  }

  // ---------------------------------------------------------------------
  // truncateAddress (utils.ts:22-27)

  /** JavaScript's `s.slice(-k)` for a non-negative `k`. Because `-0` is `0`,
      `slice(-0)` is the whole string, not the empty suffix. */
  function JsSliceFromEnd(s: string, k: nat): (r: string)
    ensures k == 0 ==> r == s
    ensures 0 < k <= |s| ==> r == s[|s| - k..]
  {
    if k == 0 || k > |s| then s else s[|s| - k..]
  }

  /** `truncateAddress` exactly as written: the first `startChars`
      characters, "...", then `address.slice(-endChars)`. */
  function TruncateAddressAsWritten(address: string, startChars: nat := 6, endChars: nat := 4): (r: string)
    ensures |address| <= startChars + endChars ==> r == address
    ensures |address| > startChars + endChars ==>
      r == address[..startChars] + "..." + JsSliceFromEnd(address, endChars)
  {
    if |address| <= startChars + endChars then address
    else address[..startChars] + "..." + JsSliceFromEnd(address, endChars)
  }

  /** With `endChars` = 0 the text after the ellipsis is the whole address
      rather than nothing, so the result is longer than the input. */
  lemma TruncateZeroEndKeepsWholeAddress()
    ensures TruncateAddressAsWritten("0x1234567890", 6, 0) == "0x1234...0x1234567890"
    ensures |TruncateAddressAsWritten("0x1234567890", 6, 0)| != 6 + 0 + 3
  {
    assert "0x1234567890"[..6] == "0x1234";
  }

  /** `truncateAddress` as evidently intended: a short address is returned
      unchanged; a long one keeps its first `startChars` and last `endChars`
      characters around "...". It agrees with the code as written whenever
      `endChars` is positive, which covers every call in the front-end. */
  function TruncateAddress(address: string, startChars: nat := 6, endChars: nat := 4): (r: string)
    ensures |address| <= startChars + endChars ==> r == address
    ensures |address| > startChars + endChars ==>
      && |r| == startChars + endChars + 3
      && r[..startChars] == address[..startChars]
      && r[startChars..startChars + 3] == "..."
      && r[startChars + 3..] == address[|address| - endChars..]
    ensures endChars > 0 ==> r == TruncateAddressAsWritten(address, startChars, endChars)
  {
    if |address| <= startChars + endChars then address
    else
      var r := address[..startChars] + "..." + address[|address| - endChars..];
      assert r[startChars + 3..] == address[|address| - endChars..];
      r
  }

  // ---------------------------------------------------------------------
  // getSurveyStatusColor (utils.ts:29-40)

  const ActiveColor := "text-green-600 bg-green-50 border-green-200"
  const ClosedColor := "text-gray-600 bg-gray-50 border-gray-200"
  const UpcomingColor := "text-blue-600 bg-blue-50 border-blue-200"

  function GetSurveyStatusColor(status: string): (r: string)
  {
    if status == "active" then ActiveColor
    else if status == "closed" then ClosedColor
    else if status == "upcoming" then UpcomingColor
    else ClosedColor
  }

  /** The three statuses get three different colours; anything else is
      painted like a closed survey. */
  lemma StatusColors(other: string)
    requires other != "active" && other != "closed" && other != "upcoming"
    ensures GetSurveyStatusColor("active") != GetSurveyStatusColor("closed")
    ensures GetSurveyStatusColor("active") != GetSurveyStatusColor("upcoming")
    ensures GetSurveyStatusColor("closed") != GetSurveyStatusColor("upcoming")
    ensures GetSurveyStatusColor(other) == GetSurveyStatusColor("closed")
  {
    assert ActiveColor[7] != ClosedColor[7];
    assert ActiveColor[7] != UpcomingColor[7];
    assert ClosedColor[7] != UpcomingColor[7];
  }

  // ---------------------------------------------------------------------
  // generateGradient (utils.ts:47-57)

  const Gradients: seq<string> := [
    "from-research-400 to-research-600",
    "from-insight-400 to-insight-600",
    "from-analysis-400 to-analysis-600",
    "from-purple-400 to-purple-600",
    "from-pink-400 to-pink-600",
    "from-indigo-400 to-indigo-600"
  ]

  /** JavaScript's `%`: the remainder takes the sign of the dividend. */
  function JsRem(a: int, b: int): (r: int)
    requires b > 0
    ensures a >= 0 ==> 0 <= r < b
    ensures a < 0 ==> -b < r <= 0
  {
    if a >= 0 then a % b else -((-a) % b)
  }

  /** `gradients[index % gradients.length]`; an index outside the table is
      `undefined`, here `None`. */
  function GenerateGradient(index: int): (r: Option<string>)
    ensures r.Some? ==> r.value in Gradients
  {
    var k := JsRem(index, |Gradients|);
    if 0 <= k then Some(Gradients[k]) else None
  }

  /** Natural indices cycle through the six gradients. */
  lemma GradientCycles(index: nat)
    ensures GenerateGradient(index) == GenerateGradient(index % 6) == Some(Gradients[index % 6])
  {
  }

  /** A negative index yields a gradient only when it is a multiple of six
      (the remainder is then -0, which indexes the first entry). */
  lemma GradientNegative(index: int)
    requires index < 0
    ensures GenerateGradient(index).Some? <==> index % 6 == 0
    ensures index % 6 == 0 ==> GenerateGradient(index) == Some(Gradients[0])
  {
    var k := JsRem(index, 6);
    if index % 6 == 0 {
      assert (-index) % 6 == 0;
    } else {
      assert (-index) % 6 != 0;
    }
  }

  // ---------------------------------------------------------------------
  // formatTimeRemaining (utils.ts:13-20); only the "Expired" branch is modelled

  datatype TimeRemaining = Expired | Remaining(endTimestamp: int)

  function FormatTimeRemaining(endTimestamp: int, now: int): (r: TimeRemaining)
    ensures r == Expired <==> endTimestamp <= now
    ensures r.Remaining? ==> r.endTimestamp == endTimestamp
  {
    if endTimestamp <= now then Expired else Remaining(endTimestamp)
  }
}
