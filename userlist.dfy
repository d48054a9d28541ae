/**
 * The basic-auth user list (`Haproxy._config_userlist_section`): the
 * HTTP_BASIC_AUTH setting holds `user:password` pairs separated by commas;
 * a comma preceded by a backslash belongs to the field, and `\,` stands for a
 * literal comma in a user name or password.
 */
module Userlist {
  import opened Wrappers
  import opened OrderedDict
  import opened Strings

  const SectionName := "userlist haproxy_userlist"

  /** Position `i` is where `re.split(r'(?<!\\),', s)` cuts: a comma not preceded by a backslash. */
  predicate IsSeparator(s: string, i: int) {
    0 <= i < |s| && s[i] == ',' && (i == 0 || s[i - 1] != '\\')
  }

  predicate NoSeparator(s: string) {
    forall k :: 0 <= k < |s| ==> !IsSeparator(s, k)
  }

  /** A piece that does not end in a backslash, so a comma after it is a separator. */
  predicate EndsUnescaped(s: string) {
    s == [] || s[|s| - 1] != '\\'
  }

  /** The first separator at or after `from`, or `|s|` when there is none. */
  function NextSeparator(s: string, from: nat): (j: nat)
    requires from <= |s|
    ensures from <= j <= |s|
    ensures j < |s| ==> IsSeparator(s, j)
    ensures forall k :: from <= k < j ==> !IsSeparator(s, k)
    decreases |s| - from
  {
    if from == |s| || IsSeparator(s, from) then from else NextSeparator(s, from + 1)
  }

  /**
   * `re.split(r'(?<!\\),', s)`: the pieces between separators. Joined with
   * commas they give back `s`, no piece holds a separator, and every piece but
   * the last ends without a backslash (so the comma after it was a separator).
   */
  function SplitAuth(s: string): (pieces: seq<string>)
    ensures pieces != []
    ensures Join(pieces, ',') == s
    ensures forall i :: 0 <= i < |pieces| ==> NoSeparator(pieces[i])
    ensures forall i :: 0 <= i < |pieces| - 1 ==> EndsUnescaped(pieces[i])
    decreases |s|
  {
    var j := NextSeparator(s, 0);
    if j == |s| then [s]
    else
      var rest := SplitAuth(s[j + 1..]);
      SplitCons(s, j, rest);
      [s[..j]] + rest
  }

  /** The piece before the first separator, followed by a split of the text after it, is a split of the whole. */
  lemma SplitCons(s: string, j: nat, rest: seq<string>)
    requires j < |s| && IsSeparator(s, j) && forall k :: 0 <= k < j ==> !IsSeparator(s, k)
    requires rest != [] && Join(rest, ',') == s[j + 1..]
    requires forall i :: 0 <= i < |rest| ==> NoSeparator(rest[i])
    requires forall i :: 0 <= i < |rest| - 1 ==> EndsUnescaped(rest[i])
    ensures var pieces := [s[..j]] + rest;
      && Join(pieces, ',') == s
      && (forall i :: 0 <= i < |pieces| ==> NoSeparator(pieces[i]))
      && (forall i :: 0 <= i < |pieces| - 1 ==> EndsUnescaped(pieces[i]))
  {
    var pieces := [s[..j]] + rest;
    assert pieces[1..] == rest;
    assert s == s[..j] + [','] + s[j + 1..];
    assert NoSeparator(s[..j]) by {
      forall k | 0 <= k < j ensures !IsSeparator(s[..j], k) {
        assert !IsSeparator(s, k);
      }
    }
    assert forall i :: 1 <= i < |pieces| ==> pieces[i] == rest[i - 1];
  }

  /** The split is the only one with those properties: splitting a join of such pieces gives the pieces back. */
  lemma {:induction false} SplitJoin(pieces: seq<string>)
    requires pieces != []
    requires forall i :: 0 <= i < |pieces| ==> NoSeparator(pieces[i])
    requires forall i :: 0 <= i < |pieces| - 1 ==> EndsUnescaped(pieces[i])
    ensures SplitAuth(Join(pieces, ',')) == pieces
    decreases |pieces|
  {
    if |pieces| == 1 {
      FirstSeparatorNone(pieces[0]);
    } else {
      var p, rest := pieces[0], pieces[1..];
      var t := Join(rest, ',');
      assert Join(pieces, ',') == p + [','] + t;
      FirstSeparatorAfter(p, t);
      assert (p + [','] + t)[|p| + 1..] == t;
      assert (p + [','] + t)[..|p|] == p;
      assert forall i :: 0 <= i < |rest| ==> rest[i] == pieces[i + 1];
      SplitJoin(rest);
      assert pieces == [p] + rest;
    }
  }

  lemma FirstSeparatorNone(s: string)
    requires NoSeparator(s)
    ensures NextSeparator(s, 0) == |s|
  {
  }

  lemma FirstSeparatorAfter(p: string, t: string)
    requires NoSeparator(p) && EndsUnescaped(p)
    ensures NextSeparator(p + [','] + t, 0) == |p|
  {
    var s := p + [','] + t;
    assert IsSeparator(s, |p|);
    forall k | 0 <= k < |p| ensures !IsSeparator(s, k) {
      assert !IsSeparator(p, k);
    }
  }

  /** `s.replace("\,", ",")`: each backslash-comma pair, scanning left to right, becomes a comma. */
  function Unescape(s: string): (r: string)
    ensures |r| <= |s|
  {
    if |s| >= 2 && s[0] == '\\' && s[1] == ',' then [','] + Unescape(s[2..])
    else if s == [] then []
    else [s[0]] + Unescape(s[1..])
  }

  /** Without a comma, or without a backslash, there is nothing to unescape. */
  lemma {:induction false} UnescapeUnchanged(s: string)
    requires ',' !in s || '\\' !in s
    ensures Unescape(s) == s
  {
    if s != [] {
      assert s == [s[0]] + s[1..];
      UnescapeUnchanged(s[1..]);
    }
  }

  /**
   * The inverse the setting's format implies: every comma written as `\,`.
   * Every comma of the result is preceded by a backslash, it never starts with
   * a comma, and it keeps the first character (unless that is a comma), the
   * last character and the colons of its input.
   */
  function Escape(s: string): (r: string)
    ensures r == [] <==> s == []
    ensures s != [] ==> r[0] == (if s[0] == ',' then '\\' else s[0])
    ensures s != [] ==> r[|r| - 1] == s[|s| - 1]
    ensures ':' in r <==> ':' in s
    ensures forall k :: 0 <= k < |r| && r[k] == ',' ==> k > 0 && r[k - 1] == '\\'
  {
    if s == [] then []
    else
      var head := if s[0] == ',' then ['\\', ','] else [s[0]];
      var tail := Escape(s[1..]);
      assert s == [s[0]] + s[1..];
      assert forall k :: |head| <= k < |head + tail| ==> (head + tail)[k] == tail[k - |head|];
      head + tail
  }

  /** Unescaping undoes escaping. */
  lemma {:induction false} UnescapeEscape(s: string)
    ensures Unescape(Escape(s)) == s
  {
    if s != [] {
      UnescapeEscape(s[1..]);
      assert s == [s[0]] + s[1..];
      if s[0] == ',' {
        assert Escape(s) == ['\\', ','] + Escape(s[1..]);
      } else {
        assert Escape(s) == [s[0]] + Escape(s[1..]);
      }
    }
  }

  /** The position of the first `c` in `s`, or `|s|` when there is none. */
  function IndexOf(s: string, c: char): (i: nat)
    ensures i <= |s|
    ensures i < |s| ==> s[i] == c
    ensures forall k :: 0 <= k < i ==> s[k] != c
  {
    if s == [] || s[0] == c then 0 else 1 + IndexOf(s[1..], c)
  }

  /** `s.split(c, 1)` when it yields two terms: the text before the first `c` and everything after it. */
  function SplitAtFirst(s: string, c: char): (r: Option<(string, string)>)
    ensures r.None? <==> c !in s
    ensures r.Some? ==> s == r.value.0 + [c] + r.value.1 && c !in r.value.0
  {
    var i := IndexOf(s, c);
    if i == |s| then None
    else
      assert s == s[..i] + [c] + s[i + 1..];
      Some((s[..i], s[i + 1..]))
  }

  /** Only one split at a first `c` exists. */
  lemma SplitAtFirstOf(before: string, c: char, after: string)
    requires c !in before
    ensures SplitAtFirst(before + [c] + after, c) == Some((before, after))
  {
    var s := before + [c] + after;
    assert s[|before|] == c;
    assert forall k :: 0 <= k < |before| ==> s[k] == before[k];
    assert IndexOf(s, c) == |before|;
    assert s[..|before|] == before;
    assert s[|before| + 1..] == after;
  }

  /** The statement one piece of the setting contributes, if any. */
  function UserLine(auth: string): (r: Option<string>)
    ensures r.Some? <==> Strip(auth) != [] && ':' in Strip(auth)
  {
    var trimmed := Strip(auth);
    if trimmed == [] then None
    else
      match SplitAtFirst(trimmed, ':')
      case None => None
      case Some((user, password)) =>
        Some("user " + Unescape(user) + " insecure-password " + Unescape(password))
  }

  function LineOf(line: Option<string>): seq<string> {
    if line.Some? then [line.value] else []
  }

  /** The statements of all pieces, in order. */
  function UserLines(auths: seq<string>): (lines: seq<string>)
    ensures |lines| <= |auths|
  {
    if auths == [] then []
    else UserLines(auths[..|auths| - 1]) + LineOf(UserLine(auths[|auths| - 1]))
  }

  /** One more piece adds its statement, if any, after those of the pieces before it. */
  lemma UserLinesSnoc(auths: seq<string>, i: nat)
    requires i < |auths|
    ensures UserLines(auths[..i + 1]) == UserLines(auths[..i]) + LineOf(UserLine(auths[i]))
  {
    assert auths[..i + 1][..i] == auths[..i];
  }

  /**
   * The userlist section for a setting: nothing for an empty or absent
   * setting; otherwise the section `userlist haproxy_userlist` holding one
   * statement per piece that has a colon, present only when at least one
   * statement was produced.
   */
  function UserlistSection(basicAuth: Option<string>): (cfg: ODict<seq<string>>)
    ensures Keys(cfg) == [] || (Keys(cfg) == [SectionName] && Get(cfg, SectionName).value != [])
  {
    if basicAuth.None? || basicAuth.value == [] then Empty()
    else
      var lines := UserLines(SplitAuth(basicAuth.value));
      if lines == [] then Empty() else ODict([(SectionName, lines)])
  }

  /** `_config_userlist_section(basic_auth)`: the pieces visited in order, each contributing at most one statement. */
  method ConfigUserlistSection(basicAuth: Option<string>) returns (cfg: ODict<seq<string>>)
    ensures cfg == UserlistSection(basicAuth)
  {
    cfg := Empty();
    if basicAuth.Some? && basicAuth.value != [] {
      var authList := SplitAuth(basicAuth.value);
      var userlist: seq<string> := [];
      for i := 0 to |authList|
        invariant userlist == UserLines(authList[..i])
      {
        UserLinesSnoc(authList, i);
        var auth := authList[i];
        ghost var lineOf := LineOf(UserLine(auth));
        var trimmed := Strip(auth);
        if trimmed != [] {
          var terms := SplitAtFirst(trimmed, ':');
          if terms.Some? {
            var username := Unescape(terms.value.0);
            var password := Unescape(terms.value.1);
            userlist := userlist + ["user " + username + " insecure-password " + password];
            assert UserLine(auth) == Some("user " + username + " insecure-password " + password);
          }
        }
        assert userlist == UserLines(authList[..i]) + lineOf;
      }
      assert authList[..|authList|] == authList;
      if userlist != [] {
        cfg := Set(cfg, SectionName, userlist);
        assert cfg.entries == [(SectionName, userlist)];
      }
    }
  }

  /** One `user:password` pair of the setting. */
  datatype Credential = Credential(user: string, password: string)

  /**
   * A pair the setting can carry: the user name has no colon (only the first
   * colon separates), neither field has whitespace at the outer ends that
   * `strip()` would remove, and the password does not end with a backslash
   * (which would escape the comma after it).
   */
  predicate Encodable(c: Credential) {
    && ':' !in c.user
    && (c.user != [] ==> !IsSpace(c.user[0]))
    && (c.password != [] ==> !IsSpace(c.password[|c.password| - 1]) && c.password[|c.password| - 1] != '\\')
  }

  function Field(c: Credential): string {
    Escape(c.user) + ":" + Escape(c.password)
  }

  /** The escaped `user:password` fields of a list of pairs. */
  function Fields(creds: seq<Credential>): (fields: seq<string>)
    ensures |fields| == |creds|
    ensures forall i :: 0 <= i < |creds| ==> fields[i] == Field(creds[i])
  {
    if creds == [] then [] else Fields(creds[..|creds| - 1]) + [Field(creds[|creds| - 1])]
  }

  /** The setting written for a list of pairs: escaped fields joined with commas. */
  function Encode(creds: seq<Credential>): string {
    Join(Fields(creds), ',')
  }

  function Line(c: Credential): string {
    "user " + c.user + " insecure-password " + c.password
  }

  /** The statements a list of pairs stands for. */
  function Lines(creds: seq<Credential>): (lines: seq<string>)
    ensures |lines| == |creds|
    ensures forall i :: 0 <= i < |creds| ==> lines[i] == Line(creds[i])
  {
    if creds == [] then [] else Lines(creds[..|creds| - 1]) + [Line(creds[|creds| - 1])]
  }

  lemma FieldFacts(c: Credential)
    requires Encodable(c)
    ensures NoSeparator(Field(c)) && EndsUnescaped(Field(c))
    ensures UserLine(Field(c)) == Some(Line(c))
  {
    FieldNoSeparator(c);
    var u, p := Escape(c.user), Escape(c.password);
    var f := Field(c);
    assert f[0] != ' ' && !IsSpace(f[0]) by {
      if u != [] { assert f[0] == u[0]; } else { assert f[0] == ':'; }
    }
    assert !IsSpace(f[|f| - 1]) && EndsUnescaped(f) by {
      if p != [] { assert f[|f| - 1] == p[|p| - 1]; } else { assert f[|f| - 1] == ':'; }
    }
    StripUnchanged(f);
    SplitAtFirstOf(u, ':', p);
    assert SplitAtFirst(Strip(f), ':') == Some((u, p));
    UnescapeEscape(c.user);
    UnescapeEscape(c.password);
  }

  lemma FieldNoSeparator(c: Credential)
    ensures NoSeparator(Field(c))
  {
    var u, p := Escape(c.user), Escape(c.password);
    var f := Field(c);
    assert f == u + [':'] + p;
    forall k | 0 <= k < |f| ensures !IsSeparator(f, k) {
      if f[k] == ',' {
        if k < |u| {
          assert u[k] == ',';
        } else {
          assert k > |u| && p[k - |u| - 1] == ',';
        }
      }
    }
  }

  /**
   * Round trip: for pairs the setting can carry, parsing their encoding gives
   * exactly one statement per pair, in order, with the original (unescaped)
   * fields.
   */
  lemma {:induction false} EncodeParse(creds: seq<Credential>)
    requires forall i :: 0 <= i < |creds| ==> Encodable(creds[i])
    ensures UserLines(SplitAuth(Encode(creds))) == Lines(creds)
  {
    var fields := Fields(creds);
    if creds == [] {
      assert SplitAuth(Encode(creds)) == [""];
      assert UserLines([""]) == UserLines([]) + LineOf(UserLine(""));
    } else {
      forall i | 0 <= i < |fields| ensures NoSeparator(fields[i]) && EndsUnescaped(fields[i]) {
        FieldFacts(creds[i]);
      }
      SplitJoin(fields);
      FieldLines(creds);
    }
  }

  lemma {:induction false} FieldLines(creds: seq<Credential>)
    requires forall i :: 0 <= i < |creds| ==> Encodable(creds[i])
    ensures UserLines(Fields(creds)) == Lines(creds)
  {
    if creds != [] {
      var init := creds[..|creds| - 1];
      FieldLines(init);
      FieldFacts(creds[|creds| - 1]);
      assert Fields(creds)[..|creds| - 1] == Fields(init);
    }
  }

  /**
   * End to end: a setting that encodes a non-empty list of pairs the format
   * can carry yields the userlist section with one statement per pair, in
   * order.
   */
  lemma UserlistOfEncoded(creds: seq<Credential>)
    requires creds != []
    requires forall i :: 0 <= i < |creds| ==> Encodable(creds[i])
    ensures UserlistSection(Some(Encode(creds))) == ODict([(SectionName, Lines(creds))])
  {
    var fields := Fields(creds);
    assert Encode(creds) != [] by {
      assert fields[0] == Escape(creds[0].user) + ":" + Escape(creds[0].password);
      assert ':' in fields[0];
      JoinContains(fields, ',', 0, ':');
    }
    EncodeParse(creds);
    assert |Lines(creds)| > 0;
  }

  /** Pieces that yield no statement contribute no line. */
  lemma {:induction false} NoUserLines(auths: seq<string>)
    requires forall i :: 0 <= i < |auths| ==> UserLine(auths[i]).None?
    ensures UserLines(auths) == []
    decreases |auths|
  {
    if auths != [] {
      NoUserLines(auths[..|auths| - 1]);
    }
  }

  /** A setting without any colon has no `user:password` pair, so there is no userlist section. */
  lemma UserlistWithoutColon(s: string)
    requires ':' !in s
    ensures UserlistSection(Some(s)) == Empty()
  {
    var pieces := SplitAuth(s);
    forall i | 0 <= i < |pieces| ensures UserLine(pieces[i]).None? {
      if ':' in pieces[i] {
        JoinContains(pieces, ',', i, ':');
      }
      StripWithin(pieces[i], ':');
    }
    NoUserLines(pieces);
  }

  /** Escaping works character by character, so it distributes over concatenation. */
  lemma {:induction false} EscapeConcat(a: string, b: string)
    ensures Escape(a + b) == Escape(a) + Escape(b)
  {
    if a != [] {
      assert (a + b)[1..] == a[1..] + b;
      EscapeConcat(a[1..], b);
    } else {
      assert a + b == b;
    }
  }

  /** Text without commas is its own escape. */
  lemma {:induction false} EscapeNoComma(s: string)
    requires ',' !in s
    ensures Escape(s) == s
  {
    if s != [] {
      assert ',' !in s[1..];
      EscapeNoComma(s[1..]);
    }
  }

  /** A password with one comma is written with that comma escaped. */
  lemma EscapedField(u: string, a: string, b: string)
    requires ',' !in u && ',' !in a && ',' !in b
    ensures Field(Credential(u, a + "," + b)) == u + ":" + (a + "\\," + b)
  {
    EscapeNoComma(u);
    EscapeNoComma(a);
    EscapeNoComma(b);
    EscapeConcat(a + ",", b);
    EscapeConcat(a, ",");
    assert Escape(",") == "\\,";
  }

  /** Two pairs are written as their fields joined by one comma. */
  lemma EncodeTwo(c1: Credential, c2: Credential)
    ensures Encode([c1, c2]) == Field(c1) + "," + Field(c2)
  {
    var fields := Fields([c1, c2]);
    assert fields == [Field(c1), Field(c2)];
    assert Join(fields, ',') == fields[0] + [','] + Join(fields[1..], ',');
    assert fields[1..] == [Field(c2)];
  }

  /** Two pairs the format can carry yield exactly their two statements. */
  lemma SectionOfTwo(c1: Credential, c2: Credential)
    requires Encodable(c1) && Encodable(c2)
    ensures UserlistSection(Some(Field(c1) + "," + Field(c2))) == ODict([(SectionName, [Line(c1), Line(c2)])])
  {
    EncodeTwo(c1, c2);
    UserlistOfEncoded([c1, c2]);
    assert Lines([c1, c2]) == [Line(c1), Line(c2)];
  }

  /**
   * Two pairs, the second password holding a comma written `\,`: the
   * setting yields exactly two statements, and the comma is decoded into
   * the second password (`alice:secret,bob:pw\,2` gives bob the password
   * `pw,2`).
   */
  lemma TwoUsersEscapedComma(u1: string, p1: string, u2: string, a: string, b: string)
    requires ',' !in u1 && ',' !in p1 && ',' !in u2 && ',' !in a && ',' !in b
    requires Encodable(Credential(u1, p1)) && Encodable(Credential(u2, a + "," + b))
    ensures UserlistSection(Some((u1 + ":" + p1) + "," + (u2 + ":" + (a + "\\," + b))))
         == ODict([(SectionName, ["user " + u1 + " insecure-password " + p1,
                                  "user " + u2 + " insecure-password " + (a + "," + b)])])
  {
    var c1, c2 := Credential(u1, p1), Credential(u2, a + "," + b);
    EscapeNoComma(u1);
    EscapeNoComma(p1);
    EscapedField(u2, a, b);
    SectionOfTwo(c1, c2);
  }
}
