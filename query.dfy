/** The Engine.IO polling query paths of src/transport.rs, and a small
    query-string reader used to state what those paths carry: the text
    after '?' split into `key=value` parameters at each '&'. */
module Query {

  /** The request path every polling request starts with. */
  const ENGINE_PATH: string := "/engine.io/?"

  /** The opening request: protocol revision 4, polling, cache token `t`. */
  function OpenQuery(t: string): string
  {
    ENGINE_PATH + "EIO=4&transport=polling&t=" + t
  }

  /** The requests of an open session add the session id. */
  function SessionQuery(t: string, sid: string): string
  {
    ENGINE_PATH + "EIO=4&transport=polling&t=" + t + "&sid=" + sid
  }

  /** `s` cut at every `sep`; always at least one part. */
  function SplitOn(s: string, sep: char): (parts: seq<string>)
    ensures |parts| > 0
  {
    if s == [] then [[]]
    else
      var rest := SplitOn(s[1..], sep);
      if s[0] == sep then [[]] + rest
      else [[s[0]] + rest[0]] + rest[1..]
  }

  /** A piece without the separator is one part. */
  lemma {:induction false} SplitOnPlain(a: string, sep: char)
    requires sep !in a
    ensures SplitOn(a, sep) == [a]
  {
    if a != [] {
      SplitOnPlain(a[1..], sep);
      assert [a[0]] + a[1..] == a;
    }
  }

  /** A separator after a piece without one ends the first part. */
  lemma {:induction false} SplitOnJoin(a: string, sep: char, b: string)
    requires sep !in a
    ensures SplitOn(a + [sep] + b, sep) == [a] + SplitOn(b, sep)
  {
    if a == [] {
      assert a + [sep] + b == [sep] + b;
      assert ([sep] + b)[1..] == b;
    } else {
      assert (a + [sep] + b)[1..] == a[1..] + [sep] + b;
      SplitOnJoin(a[1..], sep, b);
      assert [a[0]] + a[1..] == a;
    }
  }

  /** `parts` joined with `sep` between neighbours. */
  function Join(parts: seq<string>, sep: char): string
    requires |parts| > 0
  {
    if |parts| == 1 then parts[0] else parts[0] + [sep] + Join(parts[1..], sep)
  }

  /** Splitting undoes joining when no part holds the separator. */
  lemma {:induction false} SplitOnJoined(parts: seq<string>, sep: char)
    requires |parts| > 0
    requires forall i | 0 <= i < |parts| :: sep !in parts[i]
    ensures SplitOn(Join(parts, sep), sep) == parts
  {
    if |parts| == 1 {
      SplitOnPlain(parts[0], sep);
    } else {
      SplitOnJoin(parts[0], sep, Join(parts[1..], sep));
      SplitOnJoined(parts[1..], sep);
      assert [parts[0]] + parts[1..] == parts;
    }
  }

  /** One parameter: the text before the first '=' and the text after it. */
  function KeyValue(part: string): (string, string)
  {
    if '=' !in part then (part, "")
    else if part[0] == '=' then ("", part[1..])
    else
      var kv := KeyValue(part[1..]);
      ([part[0]] + kv.0, kv.1)
  }

  lemma {:induction false} KeyValueOf(key: string, value: string)
    requires '=' !in key
    ensures KeyValue(key + "=" + value) == (key, value)
  {
    if key == [] {
      assert key + "=" + value == "=" + value;
    } else {
      assert (key + "=" + value)[1..] == key[1..] + "=" + value;
      KeyValueOf(key[1..], value);
      assert [key[0]] + key[1..] == key;
    }
  }

  /** The parameters of a query string, in order. */
  function Params(q: string): seq<(string, string)>
  {
    KeyValues(SplitOn(q, '&'))
  }

  function KeyValues(parts: seq<string>): (kvs: seq<(string, string)>)
    ensures |kvs| == |parts|
  {
    seq(|parts|, i requires 0 <= i < |parts| => KeyValue(parts[i]))
  }

  /** The text after the request path. */
  function QueryOf(path: string): string
    requires |path| >= |ENGINE_PATH|
  {
    path[|ENGINE_PATH|..]
  }

  lemma SessionQueryText(t: string, sid: string)
    ensures |SessionQuery(t, sid)| >= |ENGINE_PATH|
    ensures SessionQuery(t, sid)[..|ENGINE_PATH|] == ENGINE_PATH
    ensures QueryOf(SessionQuery(t, sid)) == Join(["EIO=4", "transport=polling", "t=" + t, "sid=" + sid], '&')
  {
    var parts := ["EIO=4", "transport=polling", "t=" + t, "sid=" + sid];
    assert Join(parts[3..], '&') == "sid=" + sid;
    assert Join(parts[2..], '&') == "t=" + t + "&" + "sid=" + sid;
    assert Join(parts[1..], '&') == "transport=polling" + "&" + ("t=" + t + "&" + "sid=" + sid);
    assert Join(parts, '&') == "EIO=4" + "&" + ("transport=polling" + "&" + ("t=" + t + "&" + "sid=" + sid));
    assert "EIO=4&transport=polling&t=" == "EIO=4" + "&" + "transport=polling" + "&" + "t=";
  }

  lemma OpenQueryText(t: string)
    ensures |OpenQuery(t)| >= |ENGINE_PATH|
    ensures OpenQuery(t)[..|ENGINE_PATH|] == ENGINE_PATH
    ensures QueryOf(OpenQuery(t)) == Join(["EIO=4", "transport=polling", "t=" + t], '&')
  {
    var parts := ["EIO=4", "transport=polling", "t=" + t];
    assert Join(parts[2..], '&') == "t=" + t;
    assert Join(parts[1..], '&') == "transport=polling" + "&" + ("t=" + t);
    assert Join(parts, '&') == "EIO=4" + "&" + ("transport=polling" + "&" + ("t=" + t));
    assert "EIO=4&transport=polling&t=" == "EIO=4" + "&" + "transport=polling" + "&" + "t=";
  }

  lemma FixedPartsPlain()
    ensures '&' !in "EIO=4" && '&' !in "transport=polling"
  {
  }

  lemma SessionQuerySplit(t: string, sid: string)
    requires '&' !in t && '&' !in sid
    ensures SplitOn(QueryOf(SessionQuery(t, sid)), '&') == ["EIO=4", "transport=polling", "t=" + t, "sid=" + sid]
  {
    SessionQueryText(t, sid);
    FixedPartsPlain();
    SplitOnJoined(["EIO=4", "transport=polling", "t=" + t, "sid=" + sid], '&');
  }

  lemma OpenQuerySplit(t: string)
    requires '&' !in t
    ensures SplitOn(QueryOf(OpenQuery(t)), '&') == ["EIO=4", "transport=polling", "t=" + t]
  {
    OpenQueryText(t);
    FixedPartsPlain();
    SplitOnJoined(["EIO=4", "transport=polling", "t=" + t], '&');
  }

  lemma EioPair()
    ensures KeyValue("EIO=4") == ("EIO", "4")
  {
    KeyValueOf("EIO", "4");
    assert "EIO" + "=" + "4" == "EIO=4";
  }

  lemma TransportPair()
    ensures KeyValue("transport=polling") == ("transport", "polling")
  {
    KeyValueOf("transport", "polling");
    assert "transport" + "=" + "polling" == "transport=polling";
  }

  /** The two parameters whose values vary read back as the token and
      the session id. */
  lemma VariablePairs(t: string, sid: string)
    ensures KeyValue("t=" + t) == ("t", t)
    ensures KeyValue("sid=" + sid) == ("sid", sid)
  {
    KeyValueOf("t", t);
    assert "t" + "=" + t == "t=" + t;
    KeyValueOf("sid", sid);
    assert "sid" + "=" + sid == "sid=" + sid;
  }

  /** The session query starts with the engine path and carries, in this
      order, EIO=4, transport=polling, the token and the session id, as
      long as neither token nor id contains '&'. */
  lemma SessionQueryParams(t: string, sid: string)
    requires '&' !in t && '&' !in sid
    ensures |SessionQuery(t, sid)| >= |ENGINE_PATH|
    ensures SessionQuery(t, sid)[..|ENGINE_PATH|] == ENGINE_PATH
    ensures Params(QueryOf(SessionQuery(t, sid)))
      == [("EIO", "4"), ("transport", "polling"), ("t", t), ("sid", sid)]
  {
    SessionQueryText(t, sid);
    SessionQuerySplit(t, sid);
    var parts := ["EIO=4", "transport=polling", "t=" + t, "sid=" + sid];
    calc {
      Params(QueryOf(SessionQuery(t, sid)));
      KeyValues(parts);
      { KeyValuesOfFour(parts); }
      [KeyValue(parts[0]), KeyValue(parts[1]), KeyValue(parts[2]), KeyValue(parts[3])];
      { EioPair(); TransportPair(); VariablePairs(t, sid); }
      [("EIO", "4"), ("transport", "polling"), ("t", t), ("sid", sid)];
    }
  }

  lemma KeyValuesOfFour(parts: seq<string>)
    requires |parts| == 4
    ensures KeyValues(parts) == [KeyValue(parts[0]), KeyValue(parts[1]), KeyValue(parts[2]), KeyValue(parts[3])]
  {
  }

  lemma KeyValuesOfThree(parts: seq<string>)
    requires |parts| == 3
    ensures KeyValues(parts) == [KeyValue(parts[0]), KeyValue(parts[1]), KeyValue(parts[2])]
  {
  }

  /** The opening query starts with the engine path and carries EIO=4,
      transport=polling and the token. */
  lemma OpenQueryParams(t: string)
    requires '&' !in t
    ensures |OpenQuery(t)| >= |ENGINE_PATH|
    ensures OpenQuery(t)[..|ENGINE_PATH|] == ENGINE_PATH
    ensures Params(QueryOf(OpenQuery(t))) == [("EIO", "4"), ("transport", "polling"), ("t", t)]
  {
    OpenQueryText(t);
    OpenQuerySplit(t);
    var parts := ["EIO=4", "transport=polling", "t=" + t];
    calc {
      Params(QueryOf(OpenQuery(t)));
      KeyValues(parts);
      { KeyValuesOfThree(parts); }
      [KeyValue(parts[0]), KeyValue(parts[1]), KeyValue(parts[2])];
      { EioPair(); TransportPair(); VariablePairs(t, ""); }
      [("EIO", "4"), ("transport", "polling"), ("t", t)];
    }
  }

  /** A session query is the opening query with the session id appended. */
  lemma SessionExtendsOpen(t: string, sid: string)
    ensures SessionQuery(t, sid) == OpenQuery(t) + "&sid=" + sid
  {
  }
}
