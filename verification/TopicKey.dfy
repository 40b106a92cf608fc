/** The flat key of a topic (topic.h) and the string functions it is built with (utils.cpp). */
module TopicKey {
  import opened Seqs

  datatype Topic = Topic(instanceName: string, topicName: string, params: string)

  // ---------- Joining and splitting at "::" ----------

  /** The strings one after the other, with "::" between neighbours. */
  function Join(parts: seq<string>): string {
    if |parts| == 0 then ""
    else if |parts| == 1 then parts[0]
    else Join(Init(parts)) + "::" + Last(parts)
  }

  /** Concat, for the separator "::". */
  method Concat(strings: seq<string>) returns (ret: string)
    ensures ret == Join(strings)
  {
    ret := "";
    for i := 0 to |strings|
      invariant ret == Join(strings[..i])
    {
      assert Init(strings[..i + 1]) == strings[..i];
      if i > 0 {
        ret := ret + "::";
      }
      ret := ret + strings[i];
    }
    assert strings[..|strings|] == strings;
  }

  predicate SepAt(s: string, k: int) {
    0 <= k <= |s| - 2 && s[k] == ':' && s[k + 1] == ':'
  }

  /** Where the first separator starts, or -1. */
  function FirstSep(s: string): (k: int)
    ensures k == -1 || SepAt(s, k)
    ensures forall j :: SepAt(s, j) ==> 0 <= k <= j
  {
    if |s| < 2 then -1
    else if SepAt(s, 0) then 0
    else
      var k := FirstSep(s[1..]);
      assert forall j :: SepAt(s, j) ==> j > 0 && SepAt(s[1..], j - 1);
      if k == -1 then -1 else k + 1
  }

  lemma FirstSepIs(s: string, k: int)
    requires SepAt(s, k) && forall j :: 0 <= j < k ==> !SepAt(s, j)
    ensures FirstSep(s) == k
  {
  }

  /** The pieces between separators, found from the left; an empty last piece after a separator is dropped. */
  function Split(s: string): (tokens: seq<string>)
    ensures |tokens| > 0
    decreases |s|
  {
    var k := FirstSep(s);
    if k == -1 then [s]
    else if k + 2 == |s| then [s[..k]]
    else [s[..k]] + Split(s[k + 2..])
  }

  /** The pieces of what follows a separator. */
  function Pieces(rest: string): seq<string> {
    if rest == "" then [] else Split(rest)
  }

  lemma SplitStep(s: string)
    ensures var k := FirstSep(s);
            Split(s) == if k == -1 then [s] else [s[..k]] + Pieces(s[k + 2..])
  {
  }

  /** SplitString, for the separator "::": a token before every match, and the rest if there is any. */
  method SplitString(str: string) returns (tokens: seq<string>)
    ensures tokens == Split(str)
  {
    hide Split;
    hide FirstSep;
    SplitStep(str);
    var rest, k := str, FirstSep(str);
    if k == -1 {
      return [str];
    }
    tokens := [];
    while k != -1
      invariant k == FirstSep(rest)
      invariant tokens + Pieces(rest) == Split(str)
      decreases |rest|
    {
      SplitStep(rest);
      tokens := tokens + [rest[..k]];
      rest := rest[k + 2..];
      k := FirstSep(rest);
    }
    SplitStep(rest);
    if rest != "" {
      tokens := tokens + [rest];
    }
  }

  // ---------- Topics and their keys ----------

  /** Topic::GetType. */
  function GetType(t: Topic): string {
    t.instanceName + "::" + t.topicName + "::" + t.params
  }

  /** Topic::GetTopicFromType; None where the source reads past the end of the token list. */
  function GetTopicFromType(key: string): Option<Topic> {
    var v := Split(key);
    if |v| < 2 then None else Some(Topic(v[0], v[1], if |v| > 2 then v[2] else ""))
  }

  lemma GetTypeIsJoin(t: Topic)
    ensures GetType(t) == Join([t.instanceName, t.topicName, t.params])
  {
    var parts := [t.instanceName, t.topicName, t.params];
    assert Init(parts) == [t.instanceName, t.topicName];
    assert Init([t.instanceName, t.topicName]) == [t.instanceName];
    assert Join([t.instanceName, t.topicName]) == t.instanceName + "::" + t.topicName;
  }

  /** No separator inside. */
  predicate Plain(s: string) {
    forall k :: 0 <= k <= |s| - 2 ==> !(s[k] == ':' && s[k + 1] == ':')
  }

  /** A name: no separator inside, and not ending in a colon that would join the separator after it. */
  predicate IsName(s: string) {
    Plain(s) && (|s| > 0 ==> s[|s| - 1] != ':')
  }

  predicate WellFormed(t: Topic) {
    IsName(t.instanceName) && IsName(t.topicName) && Plain(t.params)
  }

  predicate RoundTrips(t: Topic) {
    GetTopicFromType(GetType(t)) == Some(t)
  }

  /** The first token of name + "::" + rest is the name exactly when it is a name. */
  lemma FirstToken(name: string, rest: string)
    ensures var s := name + "::" + rest;
            && 0 <= FirstSep(s) <= |name|
            && (FirstSep(s) == |name| <==> IsName(name))
            && (IsName(name) ==> Split(s) == if rest == "" then [name] else [name] + Split(rest))
  {
    var s := name + "::" + rest;
    assert SepAt(s, |name|);
    if IsName(name) {
      forall j | 0 <= j < |name| ensures !SepAt(s, j) {
        assert s[j] == name[j];
        if j < |name| - 1 {
          assert s[j + 1] == name[j + 1];
        }
      }
      FirstSepIs(s, |name|);
      assert s[..|name|] == name && s[|name| + 2..] == rest;
    } else if !Plain(name) {
      var k :| 0 <= k <= |name| - 2 && name[k] == ':' && name[k + 1] == ':';
      assert SepAt(s, k);
    } else {
      assert SepAt(s, |name| - 1);
    }
  }

  lemma PlainIsOneToken(s: string)
    ensures Plain(s) <==> FirstSep(s) == -1
  {
    if !Plain(s) {
      var k :| 0 <= k <= |s| - 2 && s[k] == ':' && s[k + 1] == ':';
      assert SepAt(s, k);
    }
  }

  lemma NameIsToken(name: string, rest: string)
    requires IsName(name)
    ensures Split(name + "::" + rest) == [name] + Pieces(rest)
  {
    FirstToken(name, rest);
  }

  /** What follows the first separator of a key. */
  function Tail(t: Topic): (r: string)
    ensures |r| > 0
  {
    t.topicName + "::" + t.params
  }

  lemma KeyShape(t: Topic)
    ensures GetType(t) == t.instanceName + "::" + Tail(t)
  {
  }

  lemma TwoTokens(a: string, b: string, key: string, tail: string, rest: string)
    requires Split(key) == [a] + Pieces(tail) && Split(tail) == [b] + Pieces(rest) && |tail| > 0
    ensures Split(key) == [a, b] + Pieces(rest)
  {
    hide Split;
    assert Pieces(tail) == Split(tail);
    hide Pieces;
  }

  lemma TokensOfKey(t: Topic)
    requires IsName(t.instanceName) && IsName(t.topicName)
    ensures Split(GetType(t)) == [t.instanceName, t.topicName] + Pieces(t.params)
  {
    KeyShape(t);
    NameIsToken(t.instanceName, Tail(t));
    NameIsToken(t.topicName, t.params);
    TwoTokens(t.instanceName, t.topicName, GetType(t), Tail(t), t.params);
  }

  lemma ShortFirstToken(name: string, rest: string)
    requires !IsName(name)
    ensures |Split(name + "::" + rest)[0]| < |name|
  {
    FirstToken(name, rest);
  }

  lemma BadNames(t: Topic)
    requires !(IsName(t.instanceName) && IsName(t.topicName))
    ensures !RoundTrips(t)
  {
    KeyShape(t);
    if IsName(t.instanceName) {
      NameIsToken(t.instanceName, Tail(t));
      ShortFirstToken(t.topicName, t.params);
    } else {
      ShortFirstToken(t.instanceName, Tail(t));
    }
    hide Split;
    hide IsName;
  }

  /** A key names its topic back exactly when no field contains the separator and neither name ends in a colon. */
  lemma KeyRoundTrip(t: Topic)
    ensures RoundTrips(t) <==> WellFormed(t)
  {
    if IsName(t.instanceName) && IsName(t.topicName) {
      TokensOfKey(t);
      PlainIsOneToken(t.params);
      SplitStep(t.params);
      hide Split;
      hide Plain;
    } else {
      BadNames(t);
    }
  }

  /** Keys that the handler's two tables agree on. */
  predicate Canonical(key: string) {
    var t := GetTopicFromType(key);
    t.Some? && GetType(t.value) == key
  }

  /** Every key of a well-formed topic is canonical, and these are all the canonical keys. */
  lemma CanonicalKeys(key: string)
    ensures Canonical(key) <==> exists t: Topic :: WellFormed(t) && GetType(t) == key
  {
    if Canonical(key) {
      var t := GetTopicFromType(key).value;
      assert RoundTrips(t);
      KeyRoundTrip(t);
    }
    forall t: Topic | WellFormed(t) && GetType(t) == key ensures Canonical(key) {
      KeyRoundTrip(t);
    }
  }

  /** Distinct well-formed topics have distinct keys. */
  lemma KeysDistinct(t: Topic, u: Topic)
    requires RoundTrips(t) && RoundTrips(u) && GetType(t) == GetType(u)
    ensures t == u
  {
  }

  /** What precedes the first separator is a name. */
  lemma FirstIsName(s: string)
    requires FirstSep(s) != -1
    ensures IsName(s[..FirstSep(s)])
  {
    var k := FirstSep(s);
    forall j | 0 <= j <= k - 2 ensures !(s[..k][j] == ':' && s[..k][j + 1] == ':') {
      assert !SepAt(s, j);
    }
    if k > 0 {
      assert !SepAt(s, k - 1);
    }
  }

  /** After the first separator of a key there is another. */
  lemma SecondSep(u: Topic)
    ensures var k := GetType(u); FirstSep(k) != -1 && FirstSep(k[FirstSep(k) + 2..]) != -1
  {
    var k, a, b := GetType(u), u.instanceName, u.topicName;
    assert SepAt(k, |a|);
    var rest := k[FirstSep(k) + 2..];
    assert SepAt(rest, |a| + |b| - FirstSep(k));
  }

  /** The tokens of a text with two separators. */
  lemma TwoSeps(k: string) returns (a: string, b: string, last: string)
    requires FirstSep(k) != -1 && FirstSep(k[FirstSep(k) + 2..]) != -1
    ensures IsName(a) && IsName(b) && Split(k) == [a] + ([b] + Pieces(last))
  {
    var rest := k[FirstSep(k) + 2..];
    FirstIsName(k);
    FirstIsName(rest);
    SplitStep(k);
    SplitStep(rest);
    a, b, last := k[..FirstSep(k)], rest[..FirstSep(rest)], rest[FirstSep(rest) + 2..];
    hide Split;
    hide IsName;
    assert rest != "";
    hide FirstSep;
  }

  lemma TokensOf(v: seq<string>, a: string, b: string, p: seq<string>)
    requires v == [a] + ([b] + p)
    ensures |v| == |p| + 2 && v[0] == a && v[1] == b && (|p| > 0 ==> v[2] == p[0])
  {
  }

  /** Whatever topic a key names, it is well-formed. */
  lemma ParsedIsWellFormed(u: Topic, t: Topic)
    requires GetTopicFromType(GetType(u)) == Some(t)
    ensures WellFormed(t)
  {
    SecondSep(u);
    var a, b, last := TwoSeps(GetType(u));
    FirstPieceIsPlain(last);
    TokensOf(Split(GetType(u)), a, b, Pieces(last));
    hide Split;
    hide FirstSep;
    hide Pieces;
    hide IsName;
    assert Plain("");
    hide Plain;
  }

  lemma FirstPieceIsPlain(s: string)
    ensures |Pieces(s)| > 0 ==> Plain(Pieces(s)[0])
  {
    if s != "" {
      if FirstSep(s) == -1 {
        PlainIsOneToken(s);
      } else {
        FirstIsName(s);
      }
    }
  }
}
