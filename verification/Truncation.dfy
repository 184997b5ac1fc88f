/** Cutting one text to a token limit: the binary search and what it finds. */
module Truncation {
  import opened Base

  const MARKER: string := "\U{2026}\U{FF08}\U{5165}\U{529B}\U{306E}\U{4E00}\U{90E8}\U{3092}\U{7701}\U{7565}\U{FF09}"

  type Counter = string -> nat

  function Cut(value: string, length: nat, marker: string): string
    requires length <= |value|
  {
    value[..length] + marker
  }

  /** The search for a longest prefix that fits together with the marker. */
  function Search(count: Counter, marker: string, value: string, limit: int, low: nat, high: nat): (length: nat)
    requires low <= high <= |value|
    ensures low <= length <= high
    decreases high - low
  {
    if low == high then low
    else
      var middle := (low + high + 1) / 2;
      if count(Cut(value, middle, marker)) <= limit then Search(count, marker, value, limit, middle, high)
      else Search(count, marker, value, limit, low, middle - 1)
  }

  function Truncated(count: Counter, marker: string, value: string, limit: int): string {
    if count(value) <= limit then value
    else if count(marker) > limit then ""
    else Cut(value, Search(count, marker, value, limit, 0, |value|), marker)
  }

  method Truncate(count: Counter, marker: string, value: string, limit: int) returns (result: Result<string, int>)
    ensures result.Ok? <==> limit >= 0
    ensures limit >= 0 ==> result == Ok(Truncated(count, marker, value, limit))
  {
    if limit < 0 {
      return Err(limit);
    }
    if count(value) <= limit {
      return Ok(value);
    }
    if count(marker) > limit {
      return Ok("");
    }
    var low, high := 0, |value|;
    while low < high
      invariant 0 <= low <= high <= |value|
      invariant Search(count, marker, value, limit, low, high) == Search(count, marker, value, limit, 0, |value|)
    {
      var middle := (low + high + 1) / 2;
      if count(value[..middle] + marker) <= limit {
        low := middle;
      } else {
        high := middle - 1;
      }
    }
    return Ok(value[..low] + marker);
  }

  lemma {:induction false} SearchFits(count: Counter, marker: string, value: string, limit: nat, low: nat, high: nat)
    requires low <= high <= |value| && count(Cut(value, low, marker)) <= limit
    ensures count(Cut(value, Search(count, marker, value, limit, low, high), marker)) <= limit
    decreases high - low
  {
    if low < high {
      var middle := (low + high + 1) / 2;
      if count(Cut(value, middle, marker)) <= limit {
        SearchFits(count, marker, value, limit, middle, high);
      } else {
        SearchFits(count, marker, value, limit, low, middle - 1);
      }
    }
  }

  /** Whatever the counter does, a result that is not the empty text fits. */
  lemma TruncatedFits(count: Counter, marker: string, value: string, limit: nat)
    ensures Truncated(count, marker, value, limit) == "" || count(Truncated(count, marker, value, limit)) <= limit
    ensures count("") == 0 ==> count(Truncated(count, marker, value, limit)) <= limit
  {
    if count(value) > limit && count(marker) <= limit {
      assert Cut(value, 0, marker) == marker;
      SearchFits(count, marker, value, limit, 0, |value|);
    }
  }

  /** A longer prefix never counts fewer tokens. */
  predicate MonotoneOn(count: Counter, marker: string, value: string) {
    forall i, j :: 0 <= i <= j <= |value| ==> count(Cut(value, i, marker)) <= count(Cut(value, j, marker))
  }

  lemma {:induction false} SearchLongest(count: Counter, marker: string, value: string, limit: nat, low: nat, high: nat,
                                         longer: nat)
    requires MonotoneOn(count, marker, value) && low <= high <= |value|
    requires Search(count, marker, value, limit, low, high) < longer <= high
    ensures count(Cut(value, longer, marker)) > limit
    decreases high - low
  {
    if low < high {
      var middle := (low + high + 1) / 2;
      if count(Cut(value, middle, marker)) <= limit {
        SearchLongest(count, marker, value, limit, middle, high, longer);
      } else if longer < middle {
        SearchLongest(count, marker, value, limit, low, middle - 1, longer);
      }
    }
  }

  /** With monotone counts, the kept prefix is the longest one that fits together with the marker. */
  lemma TruncatedLongest(count: Counter, marker: string, value: string, limit: nat, longer: nat)
    requires MonotoneOn(count, marker, value) && count(value) > limit && count(marker) <= limit
    requires Search(count, marker, value, limit, 0, |value|) < longer <= |value|
    ensures Truncated(count, marker, value, limit) ==
              Cut(value, Search(count, marker, value, limit, 0, |value|), marker)
    ensures count(Cut(value, longer, marker)) > limit
  {
    SearchLongest(count, marker, value, limit, 0, |value|, longer);
  }

  /** Appending the marker never makes the text count fewer tokens. */
  predicate MarkerCosts(count: Counter, marker: string, value: string) {
    count(value) <= count(value + marker)
  }

  /** What a cut text looks like to whoever checks it: whole, empty, or a shorter prefix and the marker. */
  predicate Shortened(marker: string, original: string, selected: string) {
    selected == original || selected == "" || exists k: nat :: k < |original| && selected == Cut(original, k, marker)
  }

  /** If the marker costs something, a cut text is really shorter. */
  lemma TruncatedShortens(count: Counter, marker: string, value: string, limit: int)
    requires MarkerCosts(count, marker, value)
    ensures Shortened(marker, value, Truncated(count, marker, value, limit))
  {
    if count(value) > limit && count(marker) <= limit {
      var k := Search(count, marker, value, limit, 0, |value|);
      assert Cut(value, 0, marker) == marker;
      SearchFits(count, marker, value, limit, 0, |value|);
      assert value[..|value|] == value;
    }
  }

  /** With monotone counts a cut text is really shorter exactly unless the marker makes a text that is too long fit. */
  lemma ShortensIff(count: Counter, marker: string, value: string, limit: nat)
    requires MonotoneOn(count, marker, value) && marker != ""
    ensures Shortened(marker, value, Truncated(count, marker, value, limit)) <==>
              !(count(value + marker) <= limit < count(value))
  {
    assert Cut(value, |value|, marker) == value + marker && Cut(value, 0, marker) == marker;
    var k := Search(count, marker, value, limit, 0, |value|);
    if count(value + marker) <= limit < count(value) {
      if k < |value| {
        SearchLongest(count, marker, value, limit, 0, |value|, |value|);
      }
      forall j: nat | j < |value| ensures |Cut(value, j, marker)| != |value + marker| {
      }
    } else if count(value) > limit && count(marker) <= limit {
      SearchFits(count, marker, value, limit, 0, |value|);
    }
  }
}
