/** The broker list of the Kafka client factory: the configured string is
    split on ',', every piece is trimmed, and empty pieces are dropped. */
module KafkaModule {
  import opened Wrappers

  /** The code points JavaScript's `String.prototype.trim` removes: the
      WhiteSpace and LineTerminator characters of ECMAScript (tab, line feed,
      vertical tab, form feed, carriage return, space, no-break space, the
      Unicode space separators, line and paragraph separator, and the
      byte-order mark). */
  const JsWhitespace: set<char> := {
    '\t', '\n', '\U{000B}', '\U{000C}', '\r', ' ', '\U{00A0}', '\U{1680}',
    '\U{2000}', '\U{2001}', '\U{2002}', '\U{2003}', '\U{2004}', '\U{2005}',
    '\U{2006}', '\U{2007}', '\U{2008}', '\U{2009}', '\U{200A}',
    '\U{2028}', '\U{2029}', '\U{202F}', '\U{205F}', '\U{3000}', '\U{FEFF}'
  }

  predicate IsJsWhitespace(c: char) {
    c in JsWhitespace
  }

  predicate AllWhitespace(s: string) {
    forall i :: 0 <= i < |s| ==> IsJsWhitespace(s[i])
  }

  /** `s.split(',')`: the maximal comma-free pieces between the commas, in
      order; there is always at least one piece. */
  function Split(s: string): (pieces: seq<string>)
    ensures |pieces| >= 1
    ensures forall i :: 0 <= i < |pieces| ==> ',' !in pieces[i]
  {
    if s == [] then [""]
    else
      var rest := Split(s[1..]);
      if s[0] == ',' then [""] + rest
      else [[s[0]] + rest[0]] + rest[1..]
  }

  /** `pieces.join(',')`, the inverse of Split. */
  function Join(pieces: seq<string>): string
    requires |pieces| >= 1
  {
    if |pieces| == 1 then pieces[0] else pieces[0] + "," + Join(pieces[1..])
  }

  /** Leading whitespace removed. */
  function TrimStart(s: string): (r: string)
    ensures |r| <= |s| && r == s[|s| - |r|..]
    ensures AllWhitespace(s[..|s| - |r|])
    ensures r == [] || !IsJsWhitespace(r[0])
  {
    if s != [] && IsJsWhitespace(s[0]) then
      var r := TrimStart(s[1..]);
      var dropped := s[1..][..|s[1..]| - |r|];
      assert forall k :: 1 <= k < |s| - |r| ==> s[k] == dropped[k - 1];
      r
    else s
  }

  /** Trailing whitespace removed. */
  function TrimEnd(s: string): (r: string)
    ensures |r| <= |s| && r == s[..|r|]
    ensures AllWhitespace(s[|r|..])
    ensures r == [] || !IsJsWhitespace(r[|r| - 1])
  {
    if s != [] && IsJsWhitespace(s[|s| - 1]) then
      var r := TrimEnd(s[..|s| - 1]);
      var dropped := s[..|s| - 1][|r|..];
      assert forall k :: |r| <= k < |s| - 1 ==> s[k] == dropped[k - |r|];
      r
    else s
  }

  /** No whitespace at either end. */
  predicate Trimmed(b: string) {
    b == [] || (!IsJsWhitespace(b[0]) && !IsJsWhitespace(b[|b| - 1]))
  }

  /** `s.trim()`: the middle of s once the whitespace at both ends is gone
      (TrimIsInfix says which middle). */
  function Trim(s: string): (r: string)
    ensures Trimmed(r)
  {
    TrimEnd(TrimStart(s))
  }

  /** Trim removes only whitespace, and only at the two ends. */
  lemma TrimIsInfix(s: string)
    ensures exists i :: 0 <= i <= |s| - |Trim(s)| && Trim(s) == s[i..i + |Trim(s)|]
              && AllWhitespace(s[..i]) && AllWhitespace(s[i + |Trim(s)|..])
  {
    var a := TrimStart(s);
    var r := TrimEnd(a);
    var i := |s| - |a|;
    assert r == s[i..i + |r|];
    assert s[i + |r|..] == a[|r|..];
  }

  /** `.map((b) => b.trim())`. */
  function MapTrim(pieces: seq<string>): (trimmed: seq<string>)
    ensures |trimmed| == |pieces|
    ensures forall i :: 0 <= i < |pieces| ==> trimmed[i] == Trim(pieces[i])
  {
    seq(|pieces|, i requires 0 <= i < |pieces| => Trim(pieces[i]))
  }

  /** `.filter(Boolean)`: of strings, only '' is falsy. */
  function FilterNonEmpty(pieces: seq<string>): (kept: seq<string>)
    ensures |kept| <= |pieces|
    ensures forall i :: 0 <= i < |kept| ==> kept[i] != "" && kept[i] in pieces
  {
    if pieces == [] then []
    else (if pieces[0] == "" then [] else [pieces[0]]) + FilterNonEmpty(pieces[1..])
  }

  /** The broker list handed to the Kafka client. */
  function ParseBrokers(brokers: string): (r: seq<string>)
    ensures forall i :: 0 <= i < |r| ==> r[i] != ""
    ensures forall i :: 0 <= i < |r| ==> Trimmed(r[i])
  {
    var trimmed := MapTrim(Split(brokers));
    var kept := FilterNonEmpty(trimmed);
    forall i | 0 <= i < |kept| ensures Trimmed(kept[i]) {
      var j :| 0 <= j < |trimmed| && kept[i] == trimmed[j];
    }
    kept
  }

  /** `config.get('kafka.brokers') ?? ''`, then the parse. */
  function BrokersFromConfig(configured: Option<string>): (r: seq<string>)
    ensures configured.None? ==> r == []
  {
    var brokers := configured.GetOr("");
    assert configured.None? ==> Split(brokers) == [""] && Trim("") == "";
    ParseBrokers(brokers)
  }

  // ---------------------------------------------------------------------
  // Split and Join are inverse to each other.

  lemma {:induction false} JoinSplit(s: string)
    ensures Join(Split(s)) == s
  {
    if s != [] {
      JoinSplit(s[1..]);
      var rest := Split(s[1..]);
      if s[0] == ',' {
        assert ([""] + rest)[1..] == rest;
      } else if |rest| == 1 {
        assert s == [s[0]] + s[1..];
      } else {
        var pieces := [[s[0]] + rest[0]] + rest[1..];
        assert pieces[1..] == rest[1..];
        assert Join(rest) == rest[0] + "," + Join(rest[1..]);
        assert s == [s[0]] + s[1..];
      }
    }
  }

  lemma {:induction false} SplitJoin(pieces: seq<string>)
    requires |pieces| >= 1
    requires forall i :: 0 <= i < |pieces| ==> ',' !in pieces[i]
    ensures Split(Join(pieces)) == pieces
  {
    if |pieces| == 1 {
      SplitCommaFree(pieces[0]);
    } else {
      SplitJoin(pieces[1..]);
      SplitConcat(pieces[0], Join(pieces[1..]));
      SplitCommaFree(pieces[0]);
      assert pieces == [pieces[0]] + pieces[1..];
    }
  }

  /** A comma-free string is a single piece. */
  lemma {:induction false} SplitCommaFree(s: string)
    requires ',' !in s
    ensures Split(s) == [s]
  {
    if s != [] {
      assert ',' !in s[1..] by {
        forall i | 0 <= i < |s[1..]| ensures s[1..][i] != ',' { assert s[1..][i] == s[i + 1]; }
      }
      SplitCommaFree(s[1..]);
      assert s == [s[0]] + s[1..];
    }
  }

  /** Splitting distributes over a comma: pieces keep their input order. */
  lemma {:induction false} SplitConcat(a: string, b: string)
    ensures Split(a + "," + b) == Split(a) + Split(b)
  {
    if a == [] {
      assert a + "," + b == [','] + b;
      assert ([','] + b)[1..] == b;
    } else {
      var s := a + "," + b;
      assert s[0] == a[0] && s[1..] == a[1..] + "," + b;
      SplitConcat(a[1..], b);
      var rest := Split(a[1..]);
      if a[0] == ',' {
        assert Split(s) == [""] + (rest + Split(b));
      } else {
        assert (rest + Split(b))[0] == rest[0];
        assert (rest + Split(b))[1..] == rest[1..] + Split(b);
      }
    }
  }

  // ---------------------------------------------------------------------
  // The trim-and-drop stages distribute over concatenation.

  lemma {:induction false} MapTrimConcat(x: seq<string>, y: seq<string>)
    ensures MapTrim(x + y) == MapTrim(x) + MapTrim(y)
  {
    if x == [] {
      assert x + y == y;
    } else {
      assert (x + y)[1..] == x[1..] + y;
      MapTrimConcat(x[1..], y);
    }
  }

  lemma {:induction false} FilterNonEmptyConcat(x: seq<string>, y: seq<string>)
    ensures FilterNonEmpty(x + y) == FilterNonEmpty(x) + FilterNonEmpty(y)
  {
    if x != [] {
      assert (x + y)[1..] == x[1..] + y;
      FilterNonEmptyConcat(x[1..], y);
    } else {
      assert x + y == y;
    }
  }

  /** Order: the brokers of `a,b` are those of a followed by those of b. */
  lemma ParseBrokersConcat(a: string, b: string)
    ensures ParseBrokers(a + "," + b) == ParseBrokers(a) + ParseBrokers(b)
  {
    SplitConcat(a, b);
    MapTrimConcat(Split(a), Split(b));
    FilterNonEmptyConcat(MapTrim(Split(a)), MapTrim(Split(b)));
  }

  /** A comma-free input gives its trimmed self, or nothing when it is blank. */
  lemma ParseBrokersSingle(s: string)
    requires ',' !in s
    ensures Trim(s) != "" ==> ParseBrokers(s) == [Trim(s)]
    ensures Trim(s) == "" ==> ParseBrokers(s) == []
  {
    SplitCommaFree(s);
  }

  /** A blank string trims to the empty string and to nothing else. */
  lemma TrimBlank(s: string)
    ensures Trim(s) == "" <==> AllWhitespace(s)
  {
    TrimIsInfix(s);
    if Trim(s) == "" {
      var i :| 0 <= i <= |s| && AllWhitespace(s[..i]) && AllWhitespace(s[i..]);
      forall k | 0 <= k < |s| ensures IsJsWhitespace(s[k]) {
        if k < i { assert s[..i][k] == s[k]; } else { assert s[i..][k - i] == s[k]; }
      }
    }
  }

  /** Only commas and blanks: no broker at all. */
  lemma {:induction false} ParseBrokersBlank(s: string)
    requires forall i :: 0 <= i < |s| ==> s[i] == ',' || IsJsWhitespace(s[i])
    ensures ParseBrokers(s) == []
  {
    if ',' !in s {
      ParseBrokersSingle(s);
      TrimBlank(s);
    } else {
      var k :| 0 <= k < |s| && s[k] == ',';
      var a, b := s[..k], s[k + 1..];
      assert s == a + "," + b;
      forall i | 0 <= i < |a| ensures a[i] == ',' || IsJsWhitespace(a[i]) { assert a[i] == s[i]; }
      forall i | 0 <= i < |b| ensures b[i] == ',' || IsJsWhitespace(b[i]) { assert b[i] == s[k + 1 + i]; }
      ParseBrokersBlank(a);
      ParseBrokersBlank(b);
      ParseBrokersConcat(a, b);
    }
  }

  /** Trimming twice is trimming once: every broker is already trimmed. */
  lemma TrimIdempotent(s: string)
    ensures Trim(Trim(s)) == Trim(s)
  {
    var r := Trim(s);
    var rr := Trim(r);
    if r != [] {
      TrimIsInfix(r);
      var j :| 0 <= j <= |r| - |rr| && rr == r[j..j + |rr|]
              && AllWhitespace(r[..j]) && AllWhitespace(r[j + |rr|..]);
      assert rr == r;
    }
  }
}
