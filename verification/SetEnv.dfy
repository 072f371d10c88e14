/**
 The container's environment on sshd's SetEnv line (cmd/supervisor/shell.go), and
 the quoting grammar sshd splits that line with: blanks separate words; single and
 double quotes group; a backslash escapes quotes and backslashes, and outside
 quotes also a space.
 */
module SetEnv {
  import opened Wrappers

  // ----- quoting -----

  predicate Blank(c: char) { c == ' ' || c == '\t' }

  /** Characters that force quotes. */
  predicate Forcing(c: char) { Blank(c) || c == '"' || c == '\\' }

  predicate NeedsQuotes(v: string) { exists i :: 0 <= i < |v| && Forcing(v[i]) }

  /** strings.ReplaceAll of one character by a text. */
  function ReplaceAll(s: string, c: char, text: string): string {
    if s == [] then [] else (if s[0] == c then text else [s[0]]) + ReplaceAll(s[1..], c, text)
  }

  function QuoteSetEnvPair(k: string, v: string): string {
    if !NeedsQuotes(v) then k + "=" + v
    else k + "=\"" + ReplaceAll(ReplaceAll(v, '\\', "\\\\"), '"', "\\\"") + "\""
  }

  /** Backslashes and double quotes, each behind a backslash. */
  function Guarded(v: string): string {
    if v == [] then [] else (if v[0] == '\\' || v[0] == '"' then ['\\', v[0]] else [v[0]]) + Guarded(v[1..])
  }

  lemma {:induction false} ReplaceConcat(a: string, b: string, c: char, text: string)
    ensures ReplaceAll(a + b, c, text) == ReplaceAll(a, c, text) + ReplaceAll(b, c, text)
  {
    if a == [] {
      assert a + b == b;
    } else {
      assert (a + b)[1..] == a[1..] + b;
      ReplaceConcat(a[1..], b, c, text);
    }
  }

  lemma ReplaceOne(d: char, c: char, text: string)
    ensures ReplaceAll([d], c, text) == if d == c then text else [d]
  {
    assert ReplaceAll([d][1..], c, text) == [];
  }

  /** Doing the backslashes first and the quotes second guards each character once. */
  lemma {:induction false} TwoPassesGuard(v: string)
    ensures ReplaceAll(ReplaceAll(v, '\\', "\\\\"), '"', "\\\"") == Guarded(v)
  {
    if v != [] {
      TwoPassesGuard(v[1..]);
      var head := if v[0] == '\\' then "\\\\" else [v[0]];
      ReplaceConcat(head, ReplaceAll(v[1..], '\\', "\\\\"), '"', "\\\"");
      if v[0] == '\\' {
        assert head == ['\\'] + ['\\'];
        ReplaceConcat(['\\'], ['\\'], '"', "\\\"");
      }
      ReplaceOne(v[0], '"', "\\\"");
    }
  }

  // ----- the filter -----

  datatype Pair = Pair(name: string, value: string)

  predicate HasPrefix(s: string, p: string) { p <= s }

  const Managed := {"PATH", "TERMINFO", "TERMINFO_DIRS", "FPATH", "HOME", "HOSTNAME", "PWD", "SHLVL", "OLDPWD", "_", "TERM"}

  /** strings.Cut at the first '='. */
  function Cut(kv: string): Option<Pair> {
    if kv == [] then None
    else if kv[0] == '=' then Some(Pair([], kv[1..]))
    else match Cut(kv[1..])
      case None => None
      case Some(p) => Some(Pair([kv[0]] + p.name, p.value))
  }

  predicate Forwarded(p: Pair) {
    && p.name != "" && p.name !in Managed
    && !HasPrefix(p.name, "SUPERVISOR_") && !HasPrefix(p.name, "DEVPOD_") && !HasPrefix(p.name, "KUBERNETES_")
    && '\n' !in p.value && '\r' !in p.value
  }

  /** The variables that are forwarded, in order. */
  function Filtered(environ: seq<string>): seq<Pair> {
    if environ == [] then []
    else
      var front, kv := Filtered(environ[..|environ|-1]), Cut(environ[|environ|-1]);
      if kv.Some? && Forwarded(kv.value) then front + [kv.value] else front
  }

  function QuoteAll(ps: seq<Pair>): seq<string> {
    seq(|ps|, i requires 0 <= i < |ps| => QuoteSetEnvPair(ps[i].name, ps[i].value))
  }

  method ContainerEnvForSetEnv(environ: seq<string>) returns (out: seq<string>)
    ensures out == QuoteAll(Filtered(environ))
  {
    out := [];
    for i := 0 to |environ|
      invariant out == QuoteAll(Filtered(environ[..i]))
    {
      assert environ[..i+1][..i] == environ[..i];
      var kv := Cut(environ[i]);
      if kv.None? || kv.value.name == "" { continue; }
      var k, v := kv.value.name, kv.value.value;
      if k in Managed { continue; }
      if HasPrefix(k, "SUPERVISOR_") || HasPrefix(k, "DEVPOD_") || HasPrefix(k, "KUBERNETES_") { continue; }
      if '\n' in v || '\r' in v { continue; }
      out := out + [QuoteSetEnvPair(k, v)];
    }
    assert environ[..|environ|] == environ;
  }

  /** Cut splits at the first '=' and loses nothing. */
  lemma {:induction false} CutExact(kv: string)
    ensures Cut(kv).Some? <==> '=' in kv
    ensures Cut(kv).Some? ==> kv == Cut(kv).value.name + "=" + Cut(kv).value.value && '=' !in Cut(kv).value.name
  {
    if kv != [] {
      CutExact(kv[1..]);
      assert kv == [kv[0]] + kv[1..];
      assert '=' in kv <==> kv[0] == '=' || '=' in kv[1..];
      if kv[0] != '=' && Cut(kv[1..]).Some? {
        var p := Cut(kv[1..]).value;
        assert kv == [kv[0]] + (p.name + "=" + p.value);
        assert kv == ([kv[0]] + p.name) + "=" + p.value;
      }
    }
  }

  /** Forwarded are exactly the well-formed entries that nobody else manages. */
  lemma FilteredExact(environ: seq<string>, p: Pair)
    ensures p in Filtered(environ) <==>
      && (exists i :: 0 <= i < |environ| && Cut(environ[i]) == Some(p))
      && p.name !in {"", "PATH", "TERMINFO", "TERMINFO_DIRS", "FPATH", "HOME", "HOSTNAME", "PWD", "SHLVL", "OLDPWD", "_", "TERM"}
      && !("SUPERVISOR_" <= p.name) && !("DEVPOD_" <= p.name) && !("KUBERNETES_" <= p.name)
      && '\n' !in p.value && '\r' !in p.value
  {
    FilteredIff(environ, p);
    ForwardedIs(p);
  }

  lemma ForwardedIs(p: Pair)
    ensures Forwarded(p) <==>
      && p.name !in {"", "PATH", "TERMINFO", "TERMINFO_DIRS", "FPATH", "HOME", "HOSTNAME", "PWD", "SHLVL", "OLDPWD", "_", "TERM"}
      && !("SUPERVISOR_" <= p.name) && !("DEVPOD_" <= p.name) && !("KUBERNETES_" <= p.name)
      && '\n' !in p.value && '\r' !in p.value
  {
  }

  /** In the order of the environment, entry by entry. */
  lemma {:induction false} FilteredInOrder(a: seq<string>, b: seq<string>)
    ensures Filtered(a + b) == Filtered(a) + Filtered(b)
    ensures |Filtered(a)| <= |a|
  {
    if b == [] {
      assert a + b == a && Filtered(a) + [] == Filtered(a);
    } else {
      var n := |b| - 1;
      FilteredInOrder(a, b[..n]);
      assert (a + b)[..|a + b| - 1] == a + b[..n];
    }
    if a != [] { FilteredInOrder(a[..|a| - 1], []); }
  }

  lemma {:induction false} FilteredIff(environ: seq<string>, p: Pair)
    ensures p in Filtered(environ) <==> Forwarded(p) && exists i :: 0 <= i < |environ| && Cut(environ[i]) == Some(p)
  {
    if environ != [] {
      var n := |environ| - 1;
      FilteredIff(environ[..n], p);
      assert forall i :: 0 <= i < n ==> environ[..n][i] == environ[i];
      if i :| 0 <= i < |environ| && Cut(environ[i]) == Some(p) {
        if i < n { assert Cut(environ[..n][i]) == Some(p); }
      }
      if i :| 0 <= i < n && Cut(environ[..n][i]) == Some(p) {
        assert Cut(environ[i]) == Some(p);
      }
    }
  }

  // ----- how sshd splits the line -----

  datatype Quote = NoQuote | Single | Double

  datatype Token = Token(word: string, rest: string) | Unbalanced

  function Emit(c: char, t: Token): Token { if t.Token? then t.(word := [c] + t.word) else t }

  predicate Opens(q: Quote, c: char) { q.NoQuote? && (c == '"' || c == '\'') }
  predicate Closes(q: Quote, c: char) { (q.Double? && c == '"') || (q.Single? && c == '\'') }
  predicate Escapable(q: Quote, c: char) { c == '\'' || c == '"' || c == '\\' || (q.NoQuote? && c == ' ') }

  /** One word, up to a blank outside quotes. */
  function Scan(s: string, q: Quote): (t: Token)
    ensures t.Token? ==> |t.rest| <= |s|
    ensures t.Token? && s != [] && !Blank(s[0]) ==> |t.rest| < |s|
  {
    if s == [] then if q.NoQuote? then Token([], []) else Unbalanced
    else if s[0] == '\\' then
      if |s| > 1 && Escapable(q, s[1]) then Emit(s[1], Scan(s[2..], q)) else Emit('\\', Scan(s[1..], q))
    else if q.NoQuote? && Blank(s[0]) then Token([], s)
    else if Opens(q, s[0]) then Scan(s[1..], if s[0] == '"' then Double else Single)
    else if Closes(q, s[0]) then Scan(s[1..], NoQuote)
    else Emit(s[0], Scan(s[1..], q))
  }

  /** All words of a line; None when a quote is left open. */
  function Words(s: string): Option<seq<string>>
    decreases |s|
  {
    if s == [] then Some([])
    else if Blank(s[0]) then Words(s[1..])
    else
      match Scan(s, NoQuote)
      case Unbalanced => None
      case Token(w, rest) =>
        match Words(rest)
        case None => None
        case Some(ws) => Some([w] + ws)
  }

  function JoinSpaces(ws: seq<string>): string {
    if ws == [] then [] else if |ws| == 1 then ws[0] else ws[0] + " " + JoinSpaces(ws[1..])
  }

  // ----- round trip -----

  /** Characters that mean nothing to the splitter. */
  predicate PlainChar(c: char) { !Forcing(c) && c != '\'' }
  predicate Plain(s: string) { forall i :: 0 <= i < |s| ==> PlainChar(s[i]) }

  function Prepend(w: string, t: Token): Token { if t.Token? then t.(word := w + t.word) else t }

  lemma PrependEmit(c: char, w: string, t: Token)
    ensures Emit(c, Prepend(w, t)) == Prepend([c] + w, t)
  {
    if t.Token? { assert [c] + (w + t.word) == ([c] + w) + t.word; }
  }

  lemma PrependNone(t: Token)
    ensures Prepend([], t) == t
  {
    if t.Token? { assert [] + t.word == t.word; }
  }

  lemma {:induction false} ScanPlain(p: string, s: string)
    requires Plain(p)
    ensures Scan(p + s, NoQuote) == Prepend(p, Scan(s, NoQuote))
  {
    if p == [] {
      assert p + s == s;
      PrependNone(Scan(s, NoQuote));
    } else {
      assert (p + s)[0] == p[0] && (p + s)[1..] == p[1..] + s;
      assert PlainChar(p[0]);
      ScanPlain(p[1..], s);
      PrependEmit(p[0], p[1..], Scan(s, NoQuote));
      assert [p[0]] + p[1..] == p;
    }
  }

  lemma {:induction false} ScanGuarded(v: string, s: string)
    ensures Scan(Guarded(v) + "\"" + s, Double) == Prepend(v, Scan(s, NoQuote))
  {
    if v == [] {
      assert Guarded(v) + "\"" + s == "\"" + s;
      assert ("\"" + s)[1..] == s;
      PrependNone(Scan(s, NoQuote));
    } else {
      var line, tail := Guarded(v) + "\"" + s, Guarded(v[1..]) + "\"" + s;
      if v[0] == '\\' || v[0] == '"' {
        assert line[0] == '\\' && line[1] == v[0] && line[2..] == tail;
      } else {
        assert line[0] == v[0] && line[1..] == tail;
      }
      ScanGuarded(v[1..], s);
      PrependEmit(v[0], v[1..], Scan(s, NoQuote));
      assert [v[0]] + v[1..] == v;
    }
  }

  function Assign(p: Pair): string { p.name + "=" + p.value }

  predicate GoodName(k: string) { k != "" && Plain(k) }

  /** A value survives unless it has an apostrophe and nothing that forces quotes. */
  predicate Survives(v: string) { '\'' in v ==> NeedsQuotes(v) }

  lemma ScanName(k: string, s: string)
    requires GoodName(k)
    ensures Scan(k + "=" + s, NoQuote) == Prepend(k + "=", Scan(s, NoQuote))
  {
    assert Plain(k + "=");
    ScanPlain(k + "=", s);
  }

  lemma ScanPair(p: Pair, s: string)
    requires GoodName(p.name) && Survives(p.value)
    ensures Scan(QuoteSetEnvPair(p.name, p.value) + s, NoQuote) == Prepend(Assign(p), Scan(s, NoQuote))
  {
    var k, v := p.name, p.value;
    if !NeedsQuotes(v) {
      assert Plain(k + "=" + v);
      ScanPlain(k + "=" + v, s);
    } else {
      TwoPassesGuard(v);
      var quoted := Guarded(v) + "\"" + s;
      assert QuoteSetEnvPair(k, v) + s == k + "=" + ("\"" + quoted);
      ScanName(k, "\"" + quoted);
      assert ("\"" + quoted)[1..] == quoted;
      ScanGuarded(v, s);
      PrependTwice(k + "=", v, Scan(s, NoQuote));
    }
  }

  lemma PrependTwice(a: string, b: string, t: Token)
    ensures Prepend(a, Prepend(b, t)) == Prepend(a + b, t)
  {
    if t.Token? { assert a + (b + t.word) == (a + b) + t.word; }
  }

  function Assigned(ps: seq<Pair>): seq<string> { seq(|ps|, i requires 0 <= i < |ps| => Assign(ps[i])) }

  lemma QuoteAllHead(ps: seq<Pair>)
    requires ps != []
    ensures QuoteAll(ps)[0] == QuoteSetEnvPair(ps[0].name, ps[0].value) && QuoteAll(ps)[1..] == QuoteAll(ps[1..])
    ensures Assigned(ps) == [Assign(ps[0])] + Assigned(ps[1..])
    ensures |ps| == 1 ==> JoinSpaces(QuoteAll(ps)) == QuoteAll(ps)[0] + [] && ps[1..] == []
    ensures |ps| > 1 ==> JoinSpaces(QuoteAll(ps)) == QuoteAll(ps)[0] + (" " + JoinSpaces(QuoteAll(ps[1..])))
  {
    assert QuoteAll(ps)[1..] == QuoteAll(ps[1..]);
    if |ps| > 1 {
      var q := QuoteAll(ps);
      assert JoinSpaces(q) == q[0] + " " + JoinSpaces(q[1..]);
      assert q[0] + " " + JoinSpaces(q[1..]) == q[0] + (" " + JoinSpaces(q[1..]));
    }
  }

  lemma NameStarts(p: Pair, s: string)
    requires GoodName(p.name)
    ensures QuoteSetEnvPair(p.name, p.value) != []
    ensures (QuoteSetEnvPair(p.name, p.value) + s)[0] == p.name[0] && !Blank(p.name[0])
  {
    assert PlainChar(p.name[0]);
  }

  /** The word at the head of the line, and the words of what follows. */
  lemma WordsStep(line: string, w: string, tail: string)
    requires line != [] && !Blank(line[0]) && Scan(line, NoQuote) == Token(w, tail)
    ensures Words(line) == match Words(tail) case None => None case Some(ws) => Some([w] + ws)
  {
  }

  lemma ScanStops(rest: string)
    ensures Scan([], NoQuote) == Token([], [])
    ensures Scan(" " + rest, NoQuote) == Token([], " " + rest) && Words(" " + rest) == Words(rest)
  {
    assert (" " + rest)[1..] == rest;
  }

  /** Splitting the line gives back every assignment, blanks, quotes and backslashes
      included. */
  lemma {:induction false} RoundTrip(ps: seq<Pair>)
    requires forall i :: 0 <= i < |ps| ==> GoodName(ps[i].name) && Survives(ps[i].value)
    ensures Words(JoinSpaces(QuoteAll(ps))) == Some(Assigned(ps))
  {
    hide Scan, Words, Survives, GoodName;
    if ps == [] {
      assert QuoteAll(ps) == [] && Assigned(ps) == [];
      WordsNone();
    } else {
      var p, more := ps[0], ps[1..];
      RoundTrip(more);
      QuoteAllHead(ps);
      var tail := if more == [] then [] else " " + JoinSpaces(QuoteAll(more));
      var line := QuoteSetEnvPair(p.name, p.value) + tail;
      NameStarts(p, tail);
      ScanPair(p, tail);
      ScanStops(JoinSpaces(QuoteAll(more)));
      assert Assign(p) + [] == Assign(p);
      WordsStep(line, Assign(p), tail);
      if more == [] { WordsNone(); }
    }
  }

  lemma WordsNone()
    ensures Words([]) == Some([])
  {
  }

  // ----- the other half: a lone apostrophe -----

  /** An unquoted value loses its apostrophes, and the word goes on with a blank if
      one is left open; either way it is not the assignment. */
  lemma {:induction false} ScanLoses(v: string, s: string, q: Quote, w: string)
    requires (forall i :: 0 <= i < |v| ==> !Forcing(v[i])) && !q.Double? && (s == [] || s[0] == ' ')
    requires Scan(v + s, q).Token? && Scan(v + s, q).word == w
    ensures |w| < |v| || (exists i :: 0 <= i < |w| && Blank(w[i])) || (w == v && '\'' !in v)
    ensures q.Single? ==> |w| < |v| || exists i :: 0 <= i < |w| && Blank(w[i])
  {
    if v == [] {
      assert v + s == s;
      if s != [] && q.Single? {
        assert w[0] == ' ';
      }
    } else {
      var t := (v + s)[1..];
      assert t == v[1..] + s && (v + s)[0] == v[0] && !Forcing(v[0]);
      var q' := if v[0] == '\'' then (if q.Single? then NoQuote else Single) else q;
      assert Scan(t, q').Token?;
      var w' := Scan(t, q').word;
      assert w == if v[0] == '\'' then w' else [v[0]] + w';
      ScanLoses(v[1..], s, q', w');
      if i :| 0 <= i < |w'| && Blank(w'[i]) {
        assert Blank(w[if v[0] == '\'' then i else i + 1]);
      } else if w' == v[1..] && v[0] != '\'' {
        assert w == v;
      }
    }
  }

  /** The pairs before the first bad one come back; the bad one does not. */
  lemma {:induction false} ApostropheBreaks(ps: seq<Pair>, b: nat)
    requires b < |ps| && forall i :: 0 <= i < |ps| ==> GoodName(ps[i].name)
    requires !Survives(ps[b].value) && forall i :: 0 <= i < b ==> Survives(ps[i].value)
    ensures Words(JoinSpaces(QuoteAll(ps))) != Some(Assigned(ps))
    decreases b
  {
    hide Scan, Words, GoodName;
    var p, more := ps[0], ps[1..];
    QuoteAllHead(ps);
    var tail := if more == [] then [] else " " + JoinSpaces(QuoteAll(more));
    var line := QuoteSetEnvPair(p.name, p.value) + tail;
    NameStarts(p, tail);
    if b > 0 {
      ScanPair(p, tail);
      ScanStops(JoinSpaces(QuoteAll(more)));
      assert Assign(p) + [] == Assign(p);
      WordsStep(line, Assign(p), tail);
      ApostropheBreaks(more, b - 1);
      if Words(JoinSpaces(QuoteAll(more))).Some? {
        HeadsDiffer(Assign(p), Words(JoinSpaces(QuoteAll(more))).value, Assigned(more));
      }
    } else {
      BadHead(p, tail, Assigned(ps));
    }
  }

  lemma HeadsDiffer(w: string, a: seq<string>, b: seq<string>)
    requires a != b
    ensures [w] + a != [w] + b
  {
    assert ([w] + a)[1..] == a && ([w] + b)[1..] == b;
  }

  lemma BadHead(p: Pair, tail: string, want: seq<string>)
    requires GoodName(p.name) && !Survives(p.value) && (tail == [] || tail[0] == ' ')
    requires want != [] && want[0] == Assign(p)
    ensures Words(QuoteSetEnvPair(p.name, p.value) + tail) != Some(want)
  {
    hide Scan;
    var k, v := p.name, p.value;
    var line := QuoteSetEnvPair(k, v) + tail;
    assert line == k + "=" + (v + tail);
    NameStarts(p, tail);
    ScanName(k, v + tail);
    if Scan(v + tail, NoQuote).Token? {
      var w := Scan(v + tail, NoQuote).word;
      ScanLoses(v, tail, NoQuote, w);
      if i :| 0 <= i < |w| && Blank(w[i]) {
        assert (k + "=" + w)[|k| + 1 + i] == w[i];
      }
      assert (k + "=" + w)[|k|+1..] == w && Assign(p)[|k|+1..] == v;
    }
  }

  lemma SurvivesIs(ps: seq<Pair>)
    ensures forall i :: 0 <= i < |ps| ==> (Survives(ps[i].value) <==>
      ('\'' in ps[i].value ==> ' ' in ps[i].value || '\t' in ps[i].value || '"' in ps[i].value || '\\' in ps[i].value))
  {
    forall i | 0 <= i < |ps|
      ensures NeedsQuotes(ps[i].value) <==>
        ' ' in ps[i].value || '\t' in ps[i].value || '"' in ps[i].value || '\\' in ps[i].value
    {
      ForcedIs(ps[i].value);
    }
  }

  lemma ForcedIs(v: string)
    ensures NeedsQuotes(v) <==> ' ' in v || '\t' in v || '"' in v || '\\' in v
  {
    if c :| c in v && Forcing(c) {
      var i :| 0 <= i < |v| && v[i] == c;
      assert Forcing(v[i]);
    }
  }

  /** The forwarded variables come through exactly when no value has an apostrophe
      without also having a blank, a double quote or a backslash. */
  lemma RoundTripIff(ps: seq<Pair>)
    requires forall i :: 0 <= i < |ps| ==> GoodName(ps[i].name)
    ensures Words(JoinSpaces(QuoteAll(ps))) == Some(Assigned(ps)) <==>
      forall i :: 0 <= i < |ps| && '\'' in ps[i].value ==>
        ' ' in ps[i].value || '\t' in ps[i].value || '"' in ps[i].value || '\\' in ps[i].value
  {
    SurvivesIs(ps);
    hide Words, Survives;
    if forall i :: 0 <= i < |ps| ==> Survives(ps[i].value) {
      RoundTrip(ps);
    } else {
      var b := FirstBad(ps);
      ApostropheBreaks(ps, b);
    }
  }

  function FirstBad(ps: seq<Pair>): (b: nat)
    ensures b <= |ps| && forall i :: 0 <= i < b ==> Survives(ps[i].value)
    ensures b < |ps| ==> !Survives(ps[b].value)
  {
    if ps == [] || !Survives(ps[0].value) then 0 else FirstBad(ps[1..]) + 1
  }
}
