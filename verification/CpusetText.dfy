/** CPU lists as text, such as "0,1,3-5": printing (cluster_affinity_adapt.cpp) and the repository's two parsers. */
module CpusetText {
  import opened Seqs

  const INT_MAX: nat := 0x7fff_ffff

  // ---------- Decimal numbers ----------

  predicate IsDigit(c: char) {
    '0' <= c <= '9'
  }

  function Digits(n: nat): (s: string)
    ensures |s| > 0 && forall i :: 0 <= i < |s| ==> IsDigit(s[i])
    decreases n
  {
    var d := '0' + (n % 10) as char;
    if n < 10 then [d] else Digits(n / 10) + [d]
  }

  function ValueOf(s: string): nat
    requires forall i :: 0 <= i < |s| ==> IsDigit(s[i])
    decreases |s|
  {
    if |s| == 0 then 0
    else
      assert IsDigit(s[|s| - 1]);
      10 * ValueOf(s[..|s| - 1]) + (s[|s| - 1] as int - '0' as int)
  }

  lemma {:induction false} ValueOfDigits(n: nat)
    ensures ValueOf(Digits(n)) == n
    decreases n
  {
    if n >= 10 {
      ValueOfDigits(n / 10);
      var s := Digits(n);
      assert s[..|s| - 1] == Digits(n / 10);
    } else {
      assert Digits(n)[..0] == "";
    }
  }

  predicate IsSpace(c: char) {
    c == ' ' || c == '\t' || c == '\n' || c == '\r' || c as int == 11 || c as int == 12
  }

  function SkipSpaces(s: string): string {
    if |s| > 0 && IsSpace(s[0]) then SkipSpaces(s[1..]) else s
  }

  /** How many digits the text starts with. */
  function Lead(s: string): (k: nat)
    ensures k <= |s| && forall i :: 0 <= i < k ==> IsDigit(s[i])
  {
    if |s| > 0 && IsDigit(s[0]) then
      var k := Lead(s[1..]);
      assert forall i :: 0 < i < k + 1 ==> s[i] == s[1..][i - 1];
      k + 1
    else 0
  }

  /** std::stoi: leading white space, a sign, digits, and anything after them; None where it throws. */
  function Stoi(s: string): Option<int> {
    var t := SkipSpaces(s);
    var neg := |t| > 0 && t[0] == '-';
    var u := if |t| > 0 && (t[0] == '-' || t[0] == '+') then t[1..] else t;
    var k := Lead(u);
    if k == 0 then None
    else
      var n: int := ValueOf(u[..k]);
      var v: int := if neg then -n else n;
      if -0x8000_0000 <= v <= INT_MAX then Some(v) else None
  }

  lemma StoiRange(s: string)
    ensures Stoi(s).Some? ==> Stoi(s).value <= INT_MAX
  {
  }

  lemma {:induction false} LeadOfDigits(s: string)
    requires forall i :: 0 <= i < |s| ==> IsDigit(s[i])
    ensures Lead(s) == |s|
    decreases |s|
  {
    if |s| > 0 {
      LeadOfDigits(s[1..]);
    }
  }

  lemma StoiOfDigits(n: nat)
    requires n <= INT_MAX
    ensures Stoi(Digits(n)) == Some(n)
  {
    ValueOfDigits(n);
    LeadOfDigits(Digits(n));
    assert SkipSpaces(Digits(n)) == Digits(n);
    assert Digits(n)[..|Digits(n)|] == Digits(n);
  }

  // ---------- Printing ----------

  datatype Range = Range(from: int, to: int)

  /** Maximal runs of numbers that each follow the one before by one. */
  function Runs(nums: seq<int>): (r: seq<Range>)
    ensures |nums| > 0 ==> |r| > 0 && Last(r).to == Last(nums)
  {
    if |nums| == 0 then []
    else
      var r, x := Runs(Init(nums)), Last(nums);
      if |r| > 0 && x == Last(r).to + 1 then Init(r) + [Range(Last(r).from, x)] else r + [Range(x, x)]
  }

  /** Lists that can be printed: no number comes after INT_MAX, where the next int would be asked for. */
  ghost predicate Printable(nums: seq<int>) {
    (forall i :: 0 <= i < |nums| ==> 0 <= nums[i] <= INT_MAX) && forall i :: 0 <= i < |nums| - 1 ==> nums[i] < INT_MAX
  }

  /** The last two numbers are the two greatest ints. */
  predicate EndsInTopRun(nums: seq<int>) {
    |nums| >= 2 && nums[|nums| - 2] == INT_MAX - 1 && nums[|nums| - 1] == INT_MAX
  }

  ghost predicate Proper(r: Range) {
    0 <= r.from <= r.to <= INT_MAX
  }

  /** Every run but perhaps the last ends below INT_MAX. */
  ghost predicate AllProper(rs: seq<Range>) {
    forall i :: 0 <= i < |rs| ==> Proper(rs[i]) && (i < |rs| - 1 ==> rs[i].to < INT_MAX)
  }

  ghost predicate AllBelow(rs: seq<Range>) {
    forall i :: 0 <= i < |rs| ==> Proper(rs[i]) && rs[i].to < INT_MAX
  }

  lemma {:induction false} RunsProper(nums: seq<int>)
    requires Printable(nums)
    ensures AllProper(Runs(nums)) && Showable(Runs(nums))
    ensures (|nums| > 0 ==> Last(nums) < INT_MAX) ==> AllBelow(Runs(nums))
    ensures |nums| > 0 ==> (Last(Runs(nums)).from < Last(nums) == INT_MAX <==> EndsInTopRun(nums))
    decreases |nums|
  {
    if |nums| > 0 {
      RunsProper(Init(nums));
      var r := Runs(Init(nums));
      assert |r| > 0 ==> Proper(Last(r)) && Last(r).to == nums[|nums| - 2];
      assert AllBelow(r);
    }
  }

  function Show(r: Range): string
    requires 0 <= r.from && 0 <= r.to
  {
    if r.from == r.to then Digits(r.from) else Digits(r.from) + "-" + Digits(r.to)
  }

  ghost predicate Showable(rs: seq<Range>) {
    forall i :: 0 <= i < |rs| ==> 0 <= rs[i].from && 0 <= rs[i].to
  }

  /** Every range followed by a comma. */
  ghost function ShowAll(rs: seq<Range>): string
    requires Showable(rs)
  {
    if |rs| == 0 then "" else ShowAll(Init(rs)) + Show(Last(rs)) + ","
  }

  /** The printed list. */
  ghost function Text(nums: seq<int>): string
    requires Printable(nums)
  {
    RunsProper(nums);
    if |nums| == 0 then "" else ShowAll(Init(Runs(nums))) + Show(Last(Runs(nums)))
  }

  method ShowRange(start: int, end: int) returns (s: string)
    requires 0 <= start && 0 <= end
    ensures s == Show(Range(start, end))
  {
    if start == end {
      s := Digits(start);
    } else {
      s := Digits(start) + "-" + Digits(end);
    }
  }

  lemma PrefixPrintable(nums: seq<int>, i: nat)
    requires i <= |nums| && Printable(nums)
    ensures Printable(nums[..i]) && AllProper(Runs(nums[..i])) && Showable(Runs(nums[..i]))
  {
    RunsProper(nums[..i]);
  }

  lemma RunsStep(nums: seq<int>, i: nat)
    requires 0 < i < |nums| && Printable(nums)
    ensures var r, q, x := Runs(nums[..i]), Runs(nums[..i + 1]), nums[i];
            && |r| > 0 && |q| > 0 && x >= 0
            && if x == Last(r).to + 1 then Init(q) == Init(r) && Last(q) == Range(Last(r).from, x)
               else Init(q) == r && Last(q) == Range(x, x)
  {
    assert Init(nums[..i + 1]) == nums[..i] && Last(nums[..i + 1]) == nums[i];
    assert nums[i] in nums;
  }

  /** The current run, and the text of those before it. */
  ghost predicate Printing(nums: seq<int>, i: nat, start: int, end: int, result: string) {
    && 0 < i <= |nums| && Printable(nums) && 0 <= start && 0 <= end
    && var rs := Runs(nums[..i]);
       |rs| > 0 && Showable(rs) && Last(rs) == Range(start, end) && result == ShowAll(Init(rs))
  }

  lemma PrintingStarts(nums: seq<int>)
    requires |nums| > 0 && Printable(nums)
    ensures nums[0] >= 0 && Printing(nums, 1, nums[0], nums[0], "")
  {
    assert nums[0] in nums;
    assert nums[..1] == [nums[0]];
    OneRun(nums[0]);
  }

  lemma PrintingStep(nums: seq<int>, i: nat, start: int, end: int, result: string)
    requires Printing(nums, i, start, end, result) && i < |nums|
    ensures end < INT_MAX
    ensures nums[i] == end + 1 ==> Printing(nums, i + 1, start, nums[i], result)
    ensures nums[i] != end + 1 ==> Printing(nums, i + 1, nums[i], nums[i], result + Show(Range(start, end)) + ",")
  {
    RunsStep(nums, i);
    PrefixPrintable(nums, i + 1);
    hide Runs;
    hide Show;
  }

  lemma PrintingEnds(nums: seq<int>, start: int, end: int, result: string)
    requires Printing(nums, |nums|, start, end, result)
    ensures Text(nums) == result + Show(Range(start, end))
  {
    assert nums[..|nums|] == nums;
    hide Show;
    hide ShowAll;
  }

  /** ConvertCpusetToString. */
  method ConvertCpusetToString(nums: seq<int>) returns (result: string)
    requires Printable(nums)
    ensures result == Text(nums)
  {
    if |nums| == 0 {
      return "";
    }
    result := "";
    var start, end := nums[0], nums[0];
    PrintingStarts(nums);
    for i := 1 to |nums|
      invariant 0 <= start && 0 <= end && Printing(nums, i, start, end, result)
    {
      PrintingStep(nums, i, start, end, result);
      hide Text;
      if nums[i] == end + 1 {
        end := nums[i];
      } else {
        var r := ShowRange(start, end);
        result := result + r + ",";
        start, end := nums[i], nums[i];
      }
      assert 0 <= start && 0 <= end;
      hide Printing;
    }
    PrintingEnds(nums, start, end, result);
    var r := ShowRange(start, end);
    result := result + r;
  }

  lemma OneRun(x: int)
    requires 0 <= x
    ensures Runs([x]) == [Range(x, x)] && Init(Runs([x])) == []
  {
    assert Init([x]) == [];
  }

  // ---------- Parsing ----------

  /** Where the character first occurs, or the length. */
  function Find(s: string, c: char): (k: nat)
    ensures k <= |s| && (forall i :: 0 <= i < k ==> s[i] != c) && (k < |s| ==> s[k] == c)
  {
    if |s| == 0 || s[0] == c then 0 else 1 + Find(s[1..], c)
  }

  /** The numbers from a to b. */
  function Between(a: int, b: int): seq<int>
    decreases b - a
  {
    if b < a then [] else Between(a, b - 1) + [b]
  }

  /** One item: a number, or two numbers around a dash. */
  function ParseItem(s: string): Option<seq<int>> {
    var k := Find(s, '-');
    if k == |s| then
      var x :- Stoi(s);
      Some([x])
    else
      var a :- Stoi(s[..k]);
      var b :- Stoi(s[k + 1..]);
      Some(Between(a, b))
  }

  /** Counting through the item's range stays within ints: the counter passes the last number by one. */
  predicate ItemCounts(s: string) {
    var k := Find(s, '-');
    k == |s| || Stoi(s[..k]).None? || Stoi(s[k + 1..]) != Some(INT_MAX)
  }

  /** So it does for every item up to the first that cannot be read. */
  predicate Counts(s: string)
    decreases |s|
  {
    s == "" ||
    var k := Find(s, ',');
    ItemCounts(s[..k]) && (ParseItem(s[..k]).Some? ==> Counts(if k == |s| then "" else s[k + 1..]))
  }

  /** The items between commas in order; nothing comes after a final comma. None where the parsers throw. */
  function Parse(s: string): Option<seq<int>>
    decreases |s|
  {
    if s == "" then Some([])
    else
      var k := Find(s, ',');
      var xs :- ParseItem(s[..k]);
      var rest :- Parse(if k == |s| then "" else s[k + 1..]);
      Some(xs + rest)
  }

  /** std::getline up to the next comma. */
  method NextItem(rest: string) returns (item: string, more: string)
    requires rest != ""
    ensures var k := Find(rest, ',');
            item == rest[..k] && more == if k == |rest| then "" else rest[k + 1..]
    ensures |more| < |rest|
  {
    var k := Find(rest, ',');
    item := rest[..k];
    more := if k == |rest| then "" else rest[k + 1..];
  }

  ghost function Joined(done: seq<int>, r: Option<seq<int>>): Option<seq<int>> {
    match r
    case None => None
    case Some(xs) => Some(done + xs)
  }

  lemma ParseUnfold(s: string)
    requires s != ""
    ensures var k := Find(s, ',');
            Parse(s) ==
              match ParseItem(s[..k])
              case None => None
              case Some(xs) => Joined(xs, Parse(if k == |s| then "" else s[k + 1..]))
  {
    hide ParseItem;
    hide Find;
  }

  lemma JoinedTwice(a: seq<int>, b: seq<int>, r: Option<seq<int>>)
    ensures Joined(a, Joined(b, r)) == Joined(a + b, r)
  {
    if r.Some? {
      assert a + (b + r.value) == a + b + r.value;
    }
  }

  lemma ParseStep(done: seq<int>, s: string)
    requires s != ""
    ensures var k := Find(s, ',');
            Joined(done, Parse(s)) ==
              match ParseItem(s[..k])
              case None => None
              case Some(xs) => Joined(done + xs, Parse(if k == |s| then "" else s[k + 1..]))
  {
    ParseUnfold(s);
    var k := Find(s, ',');
    var more := if k == |s| then "" else s[k + 1..];
    hide Parse;
    hide ParseItem;
    if ParseItem(s[..k]).Some? {
      JoinedTwice(done, ParseItem(s[..k]).value, Parse(more));
      hide Joined;
    }
  }

  lemma JoinedEnds(done: seq<int>, r: Option<seq<int>>)
    ensures Joined([], r) == r && Joined(done, Some([])) == Some(done)
  {
    if r.Some? {
      assert [] + r.value == r.value;
    }
    assert done + [] == done;
  }

  /** Appends the numbers from start to end. */
  method AppendRange(numbers: seq<int>, start: int, end: int) returns (all: seq<int>)
    requires start <= INT_MAX && end < INT_MAX
    ensures all == numbers + Between(start, end)
  {
    all := numbers;
    var res := start;
    assert Between(start, res - 1) == [];
    while res <= end
      invariant res <= end + 1 || res == start
      invariant start <= res <= INT_MAX && all == numbers + Between(start, res - 1)
      decreases end - res
    {
      all := all + [res];
      res := res + 1;
    }
    if end < start {
      assert Between(start, end) == [];
    }
  }

  /** The body of the loop of TransformStrToVec. */
  method AppendItem(resultSet: seq<int>, range: string) returns (r: Option<seq<int>>)
    requires ItemCounts(range)
    ensures r == match ParseItem(range) case None => None case Some(xs) => Some(resultSet + xs)
  {
    var dashPos := Find(range, '-');
    if dashPos == |range| {
      var x := Stoi(range);
      return if x.None? then None else Some(resultSet + [x.value]);
    }
    var start, end := Stoi(range[..dashPos]), Stoi(range[dashPos + 1..]);
    StoiRange(range[..dashPos]);
    StoiRange(range[dashPos + 1..]);
    hide Stoi;
    if start.None? || end.None? {
      return None;
    }
    var all := AppendRange(resultSet, start.value, end.value);
    r := Some(all);
  }

  /** TransformStrToVec. */
  method TransformStrToVec(resourceListStr: string) returns (r: Option<seq<int>>)
    requires Counts(resourceListStr)
    ensures r == Parse(resourceListStr)
  {
    var resultSet: seq<int>, rest := [], resourceListStr;
    JoinedEnds([], Parse(rest));
    assert Parse("") == Some([]);
    hide Parse;
    hide ParseItem;
    hide Find;
    while rest != ""
      invariant Joined(resultSet, Parse(rest)) == Parse(resourceListStr) && Counts(rest)
      decreases |rest|
    {
      ParseStep(resultSet, rest);
      hide Joined;
      var range;
      range, rest := NextItem(rest);
      var more := AppendItem(resultSet, range);
      if more.None? {
        return None;
      }
      resultSet := more.value;
    }
    JoinedEnds(resultSet, Some([]));
    return Some(resultSet);
  }

  /** The body of the loop of ParseRange. */
  method AppendToken(numbers: seq<int>, token: string) returns (r: Option<seq<int>>)
    requires ItemCounts(token)
    ensures r == match ParseItem(token) case None => None case Some(xs) => Some(numbers + xs)
  {
    var dashPos := Find(token, '-');
    if dashPos != |token| {
      var start, end := Stoi(token[..dashPos]), Stoi(token[dashPos + 1..]);
      StoiRange(token[..dashPos]);
      StoiRange(token[dashPos + 1..]);
      hide Stoi;
      if start.None? || end.None? {
        return None;
      }
      var all := AppendRange(numbers, start.value, end.value);
      r := Some(all);
    } else {
      var x := Stoi(token);
      r := if x.None? then None else Some(numbers + [x.value]);
    }
  }

  /** ParseRange of utils.cpp. */
  method ParseRange(rangeStr: string) returns (r: Option<seq<int>>)
    requires Counts(rangeStr)
    ensures r == Parse(rangeStr)
  {
    var numbers: seq<int>, rest := [], rangeStr;
    JoinedEnds([], Parse(rest));
    assert Parse("") == Some([]);
    hide Parse;
    hide ParseItem;
    hide Find;
    while rest != ""
      invariant Joined(numbers, Parse(rest)) == Parse(rangeStr) && Counts(rest)
      decreases |rest|
    {
      ParseStep(numbers, rest);
      hide Joined;
      var token;
      token, rest := NextItem(rest);
      var more := AppendToken(numbers, token);
      if more.None? {
        return None;
      }
      numbers := more.value;
    }
    JoinedEnds(numbers, Some([]));
    return Some(numbers);
  }

  // ---------- Round trip ----------

  lemma FindIs(s: string, c: char, k: nat)
    requires k <= |s| && (k < |s| ==> s[k] == c) && forall i :: 0 <= i < k ==> s[i] != c
    ensures Find(s, c) == k
  {
  }

  /** The two numbers of a printed range stand around its only dash. */
  lemma DashOf(a: string, b: string)
    requires (forall i :: 0 <= i < |a| ==> IsDigit(a[i])) && forall i :: 0 <= i < |b| ==> IsDigit(b[i])
    ensures var s := a + "-" + b;
            && Find(s, '-') == |a| && s[..|a|] == a && s[|a| + 1..] == b && Find(s, ',') == |s| && |a| < |s|
    ensures Find(a, '-') == |a| && Find(a, ',') == |a|
  {
    var s := a + "-" + b;
    assert forall i :: 0 <= i < |a| ==> s[i] == a[i];
    assert s[|a|] == '-';
    assert forall i :: 0 <= i < |b| ==> s[|a| + 1 + i] == b[i];
    FindIs(s, '-', |a|);
    FindIs(s, ',', |s|);
    FindIs(a, '-', |a|);
    FindIs(a, ',', |a|);
    assert s[..|a|] == a && s[|a| + 1..] == b;
  }

  /** A printed range is one item, and parses to its numbers. */
  lemma ShownItem(r: Range)
    requires Proper(r)
    ensures Show(r) != "" && Find(Show(r), ',') == |Show(r)|
    ensures ParseItem(Show(r)) == Some(Between(r.from, r.to)) && (ItemCounts(Show(r)) <==> r.from == r.to || r.to < INT_MAX)
  {
    StoiOfDigits(r.from);
    StoiOfDigits(r.to);
    var a, b := Digits(r.from), Digits(r.to);
    DashOf(a, b);
    hide Stoi;
    hide Digits;
    hide Find;
    if r.from == r.to {
      assert Between(r.from, r.from - 1) == [];
      assert Between(r.from, r.from) == [r.from];
    } else {
      TwoNumbers(a + "-" + b, |a|, r.from, r.to);
      hide ParseItem;
      hide ItemCounts;
    }
  }

  lemma TwoNumbers(s: string, k: nat, x: int, y: int)
    requires k < |s| && Find(s, '-') == k && Stoi(s[..k]) == Some(x) && Stoi(s[k + 1..]) == Some(y) && y <= INT_MAX
    ensures ParseItem(s) == Some(Between(x, y)) && (ItemCounts(s) <==> y < INT_MAX)
  {
    hide Stoi;
    hide Find;
  }

  ghost function Expand(rs: seq<Range>): seq<int> {
    if |rs| == 0 then [] else Expand(Init(rs)) + Between(Last(rs).from, Last(rs).to)
  }

  /** The runs spell out the list. */
  lemma {:induction false} ExpandRuns(nums: seq<int>)
    ensures Expand(Runs(nums)) == nums && (|nums| > 0 ==> Last(Runs(nums)).from <= Last(nums))
    decreases |nums|
  {
    if |nums| > 0 {
      ExpandRuns(Init(nums));
      InitLast(nums);
      var r, x := Runs(Init(nums)), Last(nums);
      if |r| > 0 && x == Last(r).to + 1 {
        var q := Init(r) + [Range(Last(r).from, x)];
        assert Init(q) == Init(r) && Last(q) == Range(Last(r).from, x);
        assert Between(Last(r).from, x) == Between(Last(r).from, x - 1) + [x];
        assert Expand(q) == Expand(Init(r)) + Between(Last(r).from, Last(r).to) + [x];
      } else {
        var q := r + [Range(x, x)];
        assert Init(q) == r && Last(q) == Range(x, x);
        assert Between(x, x - 1) == [] && Between(x, x) == [x];
      }
    }
  }

  /** Printed ranges with a comma each, before any further text. */
  lemma {:induction false} ParseShown(rs: seq<Range>, rest: string)
    requires AllBelow(rs)
    ensures Showable(rs) && Parse(ShowAll(rs) + rest) == Joined(Expand(rs), Parse(rest)) && (Counts(ShowAll(rs) + rest) <==> Counts(rest))
    decreases |rs|
  {
    if |rs| == 0 {
      assert ShowAll(rs) + rest == rest;
      JoinedEnds([], Parse(rest));
    } else {
      var last := Last(rs);
      assert Proper(last);
      var tail := Show(last) + "," + rest;
      ParseShown(Init(rs), tail);
      MoveText(ShowAll(Init(rs)), Show(last), rest);
      FirstItem(last, rest);
      JoinedTwice(Expand(Init(rs)), Between(last.from, last.to), Parse(rest));
      hide Parse;
      hide Counts;
      hide Show;
      hide Between;
      hide Joined;
    }
  }

  lemma MoveText(a: string, b: string, rest: string)
    ensures a + b + "," + rest == a + (b + "," + rest)
  {
  }

  lemma FirstItem(r: Range, rest: string)
    requires Proper(r)
    ensures Parse(Show(r) + "," + rest) == Joined(Between(r.from, r.to), Parse(rest))
    ensures Parse(Show(r)) == Some(Between(r.from, r.to)) && (Counts(Show(r)) <==> r.from == r.to || r.to < INT_MAX)
    ensures r.to < INT_MAX ==> (Counts(Show(r) + "," + rest) <==> Counts(rest))
  {
    ShownItem(r);
    ItemBefore(Show(r), Between(r.from, r.to), rest);
    ItemAlone(Show(r), Between(r.from, r.to));
    hide Parse;
    hide Counts;
    hide ParseItem;
    hide ItemCounts;
    hide Show;
  }

  /** An item without a comma, before another text. */
  lemma ItemBefore(item: string, xs: seq<int>, rest: string)
    requires Find(item, ',') == |item| && ParseItem(item) == Some(xs)
    ensures Parse(item + "," + rest) == Joined(xs, Parse(rest))
    ensures ItemCounts(item) ==> (Counts(item + "," + rest) <==> Counts(rest))
  {
    hide ParseItem;
    hide ItemCounts;
    var s := item + "," + rest;
    assert forall i :: 0 <= i < |item| ==> s[i] == item[i];
    assert s[|item|] == ',';
    FindIs(s, ',', |item|);
    assert s[..|item|] == item && s[|item| + 1..] == rest;
    hide Find;
  }

  lemma ItemAlone(item: string, xs: seq<int>)
    requires item != "" && Find(item, ',') == |item| && ParseItem(item) == Some(xs)
    ensures Parse(item) == Some(xs) && (Counts(item) <==> ItemCounts(item))
  {
    hide ParseItem;
    hide ItemCounts;
    hide Find;
    assert item[..|item|] == item;
    assert xs + [] == xs;
    assert Parse("") == Some([]) && Counts("");
  }

  /** The printed runs are read back as the numbers they stand for. */
  lemma ParseRuns(rs: seq<Range>)
    requires |rs| > 0 && AllBelow(Init(rs)) && Proper(Last(rs)) && Showable(Init(rs))
    ensures var text := ShowAll(Init(rs)) + Show(Last(rs));
            Parse(text) == Some(Expand(rs)) && (Counts(text) <==> Last(rs).from == Last(rs).to || Last(rs).to < INT_MAX)
  {
    hide Parse;
    hide Counts;
    hide Show;
    hide AllBelow;
    ParseShown(Init(rs), Show(Last(rs)));
    FirstItem(Last(rs), "");
  }

  /**
   * Printing a list and parsing it gives the list back, in its order and with its repetitions; the parsers' counter stays
   * within ints exactly when the list does not end in a run up to INT_MAX.
   */
  lemma RoundTrip(nums: seq<int>)
    requires Printable(nums)
    ensures Parse(Text(nums)) == Some(nums) && (Counts(Text(nums)) <==> !EndsInTopRun(nums))
  {
    hide Parse;
    hide Counts;
    hide Show;
    hide EndsInTopRun;
    if |nums| == 0 {
      NothingToParse(nums);
    } else {
      RunsProper(nums);
      ExpandRuns(nums);
      var rs := Runs(nums);
      hide Runs;
      hide Printable;
      assert Proper(Last(rs)) && AllBelow(Init(rs));
      hide AllBelow;
      ParseRuns(rs);
    }
  }

  lemma NothingToParse(nums: seq<int>)
    requires |nums| == 0
    ensures Parse("") == Some(nums) && Counts("") && !EndsInTopRun(nums)
  {
  }

  // ---------- What the texts look like ----------

  /** A printed run cannot be joined with the next one. */
  lemma {:induction false} RunsMaximal(nums: seq<int>)
    ensures forall i :: 0 <= i < |Runs(nums)| - 1 ==> Runs(nums)[i].to + 1 != Runs(nums)[i + 1].from
    decreases |nums|
  {
    if |nums| > 0 {
      RunsMaximal(Init(nums));
      var r, x := Runs(Init(nums)), Last(nums);
      if |r| > 0 && x == Last(r).to + 1 {
        var q := Init(r) + [Range(Last(r).from, x)];
        forall i | 0 <= i < |q| - 1 ensures q[i].to + 1 != q[i + 1].from {
          assert r[i].to + 1 != r[i + 1].from;
        }
      }
    }
  }

  /** White space as std::isspace has it in the C locale. */
  predicate Blank(s: string) {
    forall i :: 0 <= i < |s| ==> s[i] == ' ' || 9 <= s[i] as int <= 13
  }

  predicate AllDigits(s: string) {
    forall i :: 0 <= i < |s| ==> '0' <= s[i] <= '9'
  }

  predicate StartsWithDigit(s: string) {
    |s| > 0 && '0' <= s[0] <= '9'
  }

  lemma {:induction false} SkipBlank(s: string, t: string)
    requires Blank(s) && (t != "" ==> t[0] != ' ' && !(9 <= t[0] as int <= 13))
    ensures SkipSpaces(s + t) == t
    decreases |s|
  {
    if s == "" {
      assert s + t == t;
    } else {
      assert (s + t)[1..] == s[1..] + t;
      SkipBlank(s[1..], t);
    }
  }

  lemma {:induction false} LeadIs(digits: string, tail: string)
    requires AllDigits(digits) && !StartsWithDigit(tail)
    ensures Lead(digits + tail) == |digits|
    decreases |digits|
  {
    if digits == "" {
      assert digits + tail == tail;
    } else {
      assert (digits + tail)[1..] == digits[1..] + tail;
      LeadIs(digits[1..], tail);
    }
  }

  /** Leading white space, a sign, digits, and anything else after them; it fails without digits and out of range. */
  lemma StoiMeaning(spaces: string, sign: string, digits: string, tail: string)
    requires Blank(spaces) && sign in {"", "-", "+"} && AllDigits(digits) && !StartsWithDigit(tail)
    requires digits == "" && sign == "" && tail != "" ==> tail[0] != ' ' && !(9 <= tail[0] as int <= 13) && tail[0] != '-' && tail[0] != '+'
    ensures Stoi(spaces + (sign + (digits + tail))) ==
            if digits == "" then None
            else
              var n: int := ValueOf(digits);
              var v := if sign == "-" then -n else n;
              if -0x8000_0000 <= v <= 0x7fff_ffff then Some(v) else None
  {
    hide Stoi;
    var rest := digits + tail;
    var t := sign + rest;
    if sign == "" {
      assert t == rest;
      assert digits != "" ==> rest[0] == digits[0];
      assert digits == "" ==> rest == tail;
    } else {
      assert t[0] == sign[0] && t[1..] == rest;
    }
    SkipBlank(spaces, t);
    LeadIs(digits, tail);
    assert rest[..|digits|] == digits;
    Signed(spaces + t, t, sign, rest, digits);
  }

  lemma Signed(s: string, t: string, sign: string, rest: string, digits: string)
    requires SkipSpaces(s) == t && AllDigits(digits) && |digits| <= |rest| && Lead(rest) == |digits| && rest[..|digits|] == digits
    requires sign in {"", "-", "+"}
    requires if sign == "" then t == rest && (t != "" ==> t[0] != '-' && t[0] != '+') else t != "" && t[0] == sign[0] && t[1..] == rest
    ensures Stoi(s) ==
            if digits == "" then None
            else
              var n: int := ValueOf(digits);
              var v := if sign == "-" then -n else n;
              if -0x8000_0000 <= v <= 0x7fff_ffff then Some(v) else None
  {
    hide Lead;
    hide ValueOf;
    hide SkipSpaces;
  }

  lemma DigitsJoin(a: string, b: string)
    requires AllDigits(a) && AllDigits(b)
    ensures AllDigits(a + b)
  {
  }

  lemma ValueOfLast(s: string)
    requires |s| > 0 && AllDigits(s)
    ensures AllDigits(s[..|s| - 1]) && ValueOf(s) == 10 * ValueOf(s[..|s| - 1]) + (s[|s| - 1] as int - '0' as int)
  {
  }

  /** Digits count by their places, leading zeros included. */
  lemma {:induction false} ValueOfPlaces(a: string, b: string)
    requires AllDigits(a) && AllDigits(b)
    ensures AllDigits(a + b) && ValueOf(a + b) == ValueOf(a) * Tens(|b|) + ValueOf(b)
    decreases |b|
  {
    DigitsJoin(a, b);
    if b == "" {
      assert a + b == a;
    } else {
      var c, s := b[..|b| - 1], a + b;
      assert s[..|s| - 1] == a + c && s[|s| - 1] == b[|b| - 1];
      ValueOfLast(s);
      ValueOfLast(b);
      hide ValueOf;
      ValueOfPlaces(a, c);
      TensTimes(ValueOf(a), |c|);
    }
  }

  function Tens(n: nat): int {
    if n == 0 then 1 else 10 * Tens(n - 1)
  }

  lemma TensTimes(v: int, n: nat)
    ensures v * Tens(n + 1) == 10 * (v * Tens(n))
  {
    var k := Tens(n);
    assert v * (10 * k) == 10 * (v * k);
  }

  lemma OneDigit(d: nat)
    requires d < 10
    ensures ValueOf(['0' + d as char]) == d
  {
    assert ['0' + d as char][..0] == "";
  }
}
