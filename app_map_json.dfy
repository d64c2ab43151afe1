/**
 * The text form of the tracing app map: a JSON object whose members are all
 * strings (service id to address). This canonical writer and its reader stand
 * in for fastjson's `JSON.toJSONString` and `JSON.parseObject` on such maps.
 */
module AppMapJson {
  import opened Wrappers

  datatype Member = Member(key: string, value: string)

  /** The string inside a JSON string literal: '"' and '\' are escaped with '\'. */
  function Escape(s: string): (r: string)
    ensures |r| >= |s|
  {
    if s == [] then []
    else (if s[0] == '"' || s[0] == '\\' then ['\\', s[0]] else [s[0]]) + Escape(s[1..])
  }

  /** A string without '"' or '\' is written as it is. */
  lemma {:induction false} EscapePlain(s: string)
    requires '"' !in s && '\\' !in s
    ensures Escape(s) == s
  {
    if s != [] {
      EscapePlain(s[1..]);
      assert [s[0]] + s[1..] == s;
    }
  }

  /** Every '"' in escaped text follows a '\', so it never ends the string literal. */
  lemma {:induction false} EscapedQuotesFollowBackslash(s: string)
    ensures forall i :: 0 <= i < |Escape(s)| && Escape(s)[i] == '"' ==> 0 < i && Escape(s)[i - 1] == '\\'
  {
    if s != [] {
      EscapedQuotesFollowBackslash(s[1..]);
      var head := if s[0] == '"' || s[0] == '\\' then ['\\', s[0]] else [s[0]];
      var tail := Escape(s[1..]);
      assert Escape(s) == head + tail;
      forall i | 0 <= i < |Escape(s)| && Escape(s)[i] == '"'
        ensures 0 < i && Escape(s)[i - 1] == '\\'
      {
        if i >= |head| {
          assert Escape(s)[i] == tail[i - |head|];
          if i - |head| > 0 {
            assert Escape(s)[i - 1] == tail[i - 1 - |head|];
          }
        }
      }
    }
  }

  function Quote(s: string): string {
    ['"'] + Escape(s) + ['"']
  }

  function MemberText(m: Member): string {
    Quote(m.key) + [':'] + Quote(m.value)
  }

  /** The members after the first, each preceded by ','. */
  function MoreMembersText(ms: seq<Member>): string {
    if ms == [] then [] else [','] + MemberText(ms[0]) + MoreMembersText(ms[1..])
  }

  /** The JSON text of an object with the members `ms`, in that order. */
  function Serialize(ms: seq<Member>): (r: string)
    ensures |r| >= 2 && r[0] == '{' && r[|r| - 1] == '}'
  {
    if ms == [] then "{}" else ['{'] + MemberText(ms[0]) + MoreMembersText(ms[1..]) + ['}']
  }

  /** Reads the rest of a string literal after its opening quote: the unescaped string and what follows the closing quote. */
  function ParseChars(s: string): (r: Option<(string, string)>)
    ensures r.Some? ==> |r.value.1| < |s|
  {
    if s == [] then None
    else if s[0] == '"' then Some(([], s[1..]))
    else if s[0] == '\\' then
      if |s| < 2 || (s[1] != '"' && s[1] != '\\') then None
      else match ParseChars(s[2..])
        case None => None
        case Some((x, rest)) => Some(([s[1]] + x, rest))
    else match ParseChars(s[1..])
      case None => None
      case Some((x, rest)) => Some(([s[0]] + x, rest))
  }

  function ParseQuoted(s: string): (r: Option<(string, string)>)
    ensures r.Some? ==> |r.value.1| < |s|
  {
    if s == [] || s[0] != '"' then None else ParseChars(s[1..])
  }

  function ParseMember(s: string): (r: Option<(Member, string)>)
    ensures r.Some? ==> |r.value.1| < |s|
  {
    match ParseQuoted(s)
    case None => None
    case Some((k, rest)) =>
      if rest == [] || rest[0] != ':' then None
      else match ParseQuoted(rest[1..])
        case None => None
        case Some((v, rest')) => Some((Member(k, v), rest'))
  }

  /** Reads ", member" repeatedly up to and including the closing '}'. */
  function ParseMoreMembers(s: string): (r: Option<(seq<Member>, string)>)
    ensures r.Some? ==> |r.value.1| < |s|
    decreases |s|
  {
    if s == [] then None
    else if s[0] == '}' then Some(([], s[1..]))
    else if s[0] != ',' then None
    else match ParseMember(s[1..])
      case None => None
      case Some((m, rest)) =>
        match ParseMoreMembers(rest)
        case None => None
        case Some((ms, rest')) => Some(([m] + ms, rest'))
  }

  /** Parses a whole JSON object with string members; `None` for any other text. */
  function Parse(s: string): (r: Option<seq<Member>>)
    ensures r.Some? ==> |s| >= 2 && s[0] == '{'
    ensures r == Some([]) <==> s == "{}"
  {
    if |s| < 2 || s[0] != '{' then None
    else if s[1] == '}' then (if |s| == 2 then Some([]) else None)
    else match ParseMember(s[1..])
      case None => None
      case Some((m, rest)) =>
        match ParseMoreMembers(rest)
        case None => None
        case Some((ms, rest')) => if rest' == [] then Some([m] + ms) else None
  }

  /** The object as a map: a member later in the text overrides an earlier one with the same key. */
  function ToMap(ms: seq<Member>): map<string, string>
  {
    if ms == [] then map[] else ToMap(ms[..|ms| - 1])[ms[|ms| - 1].key := ms[|ms| - 1].value]
  }

  lemma {:induction false} ParseCharsEscape(x: string, rest: string)
    ensures ParseChars(Escape(x) + ['"'] + rest) == Some((x, rest))
  {
    if x != [] {
      var head := if x[0] == '"' || x[0] == '\\' then ['\\', x[0]] else [x[0]];
      var s := Escape(x) + ['"'] + rest;
      assert s == head + (Escape(x[1..]) + ['"'] + rest);
      ParseCharsEscape(x[1..], rest);
      if |head| == 2 {
        assert s[2..] == Escape(x[1..]) + ['"'] + rest;
      } else {
        assert s[1..] == Escape(x[1..]) + ['"'] + rest;
      }
      assert [x[0]] + x[1..] == x;
    }
  }

  lemma ParseQuotedQuote(x: string, rest: string)
    ensures ParseQuoted(Quote(x) + rest) == Some((x, rest))
  {
    var s := Quote(x) + rest;
    assert s[1..] == Escape(x) + ['"'] + rest;
    ParseCharsEscape(x, rest);
  }

  lemma ParseMemberText(m: Member, rest: string)
    ensures ParseMember(MemberText(m) + rest) == Some((m, rest))
  {
    var s := MemberText(m) + rest;
    var afterKey := [':'] + Quote(m.value) + rest;
    assert s == Quote(m.key) + afterKey;
    ParseQuotedQuote(m.key, afterKey);
    assert afterKey[1..] == Quote(m.value) + rest;
    ParseQuotedQuote(m.value, rest);
  }

  lemma {:induction false} ParseMoreMembersText(ms: seq<Member>, rest: string)
    ensures ParseMoreMembers(MoreMembersText(ms) + ['}'] + rest) == Some((ms, rest))
  {
    var s := MoreMembersText(ms) + ['}'] + rest;
    if ms == [] {
      assert s[1..] == rest;
    } else {
      var after := MoreMembersText(ms[1..]) + ['}'] + rest;
      assert s[0] == ',' && ParseMember(s[1..]) == Some((ms[0], after)) by {
        MoreMembersSplit(ms, rest);
        ParseMemberText(ms[0], after);
      }
      ParseMoreMembersText(ms[1..], rest);
      ParseMoreStep(s, ms[0], after, ms[1..], rest);
      assert [ms[0]] + ms[1..] == ms;
    }
  }

  lemma MoreMembersSplit(ms: seq<Member>, rest: string)
    requires ms != []
    ensures (MoreMembersText(ms) + ['}'] + rest)[0] == ','
    ensures (MoreMembersText(ms) + ['}'] + rest)[1..] == MemberText(ms[0]) + (MoreMembersText(ms[1..]) + ['}'] + rest)
  {
    var m, t := MemberText(ms[0]), MoreMembersText(ms[1..]);
    assert MoreMembersText(ms) == [','] + m + t;
    CommaSlice(m, t, rest);
  }

  lemma CommaSlice(m: string, t: string, rest: string)
    ensures ([','] + m + t + ['}'] + rest)[0] == ','
    ensures ([','] + m + t + ['}'] + rest)[1..] == m + (t + ['}'] + rest)
  {
  }

  lemma ParseMoreStep(s: string, m: Member, after: string, ms: seq<Member>, rest: string)
    requires s != [] && s[0] == ','
    requires ParseMember(s[1..]) == Some((m, after))
    requires ParseMoreMembers(after) == Some((ms, rest))
    ensures ParseMoreMembers(s) == Some(([m] + ms, rest))
  {
  }

  lemma ParseObject(s: string, m: Member, after: string, ms: seq<Member>)
    requires |s| >= 2 && s[0] == '{' && s[1] != '}'
    requires ParseMember(s[1..]) == Some((m, after))
    requires ParseMoreMembers(after) == Some((ms, []))
    ensures Parse(s) == Some([m] + ms)
  {
  }

  /** The text of a non-empty object parses back to its members. */
  lemma ParseNonEmpty(s: string, ms: seq<Member>)
    requires ms != [] && s == ['{'] + (MemberText(ms[0]) + (MoreMembersText(ms[1..]) + ['}']))
    ensures Parse(s) == Some(ms)
  {
    var after := MoreMembersText(ms[1..]) + ['}'];
    assert s[1..] == MemberText(ms[0]) + after;
    assert s[1] == '"' by {
      assert s[1] == Quote(ms[0].key)[0];
    }
    assert ParseMember(s[1..]) == Some((ms[0], after)) by {
      ParseMemberText(ms[0], after);
    }
    assert ParseMoreMembers(after) == Some((ms[1..], [])) by {
      assert after == MoreMembersText(ms[1..]) + ['}'] + [];
      ParseMoreMembersText(ms[1..], []);
    }
    ParseObject(s, ms[0], after, ms[1..]);
    assert [ms[0]] + ms[1..] == ms;
  }

  lemma SerializeNonEmpty(ms: seq<Member>)
    requires ms != []
    ensures Serialize(ms) == ['{'] + (MemberText(ms[0]) + (MoreMembersText(ms[1..]) + ['}']))
  {
  }

  /** Parsing undoes serialising, for every list of members. */
  lemma ParseSerialize(ms: seq<Member>)
    ensures Parse(Serialize(ms)) == Some(ms)
  {
    if ms == [] {
      assert Parse("{}") == Some([]);
    } else {
      SerializeNonEmpty(ms);
      ParseNonEmpty(Serialize(ms), ms);
    }
  }

  /** Appending a member adds (or overrides) exactly that key in the map view. */
  lemma ToMapAppend(ms: seq<Member>, m: Member)
    ensures ToMap(ms + [m]) == ToMap(ms)[m.key := m.value]
  {
    assert (ms + [m])[..|ms|] == ms;
  }

  /** The map view has exactly the keys the members name. */
  lemma {:induction false} ToMapKeys(ms: seq<Member>)
    ensures ToMap(ms).Keys == set i | 0 <= i < |ms| :: ms[i].key
  {
    if ms != [] {
      var init := ms[..|ms| - 1];
      ToMapKeys(init);
      assert forall i :: 0 <= i < |init| ==> init[i] == ms[i];
    }
  }
}
