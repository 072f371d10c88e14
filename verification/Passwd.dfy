/** Root's entry in /etc/passwd (cmd/supervisor/shell.go). Bytes are characters here. */
module Passwd {
  import opened Wrappers

  // ----- strings.Split and strings.Join for a one-character separator -----

  function Split(s: string, sep: char): (r: seq<string>)
    ensures r != []
  {
    if s == [] then [[]]
    else
      var r := Split(s[1..], sep);
      if s[0] == sep then [[]] + r else [[s[0]] + r[0]] + r[1..]
  }

  function Join(parts: seq<string>, sep: char): string
    requires parts != []
  {
    if |parts| == 1 then parts[0] else parts[0] + [sep] + Join(parts[1..], sep)
  }

  predicate Clean(parts: seq<string>, sep: char) { forall i :: 0 <= i < |parts| ==> sep !in parts[i] }

  lemma {:induction false} JoinSplit(s: string, sep: char)
    ensures Join(Split(s, sep), sep) == s && Clean(Split(s, sep), sep)
  {
    if s != [] {
      JoinSplit(s[1..], sep);
      var r := Split(s[1..], sep);
      if s[0] == sep {
        assert ([[]] + r)[1..] == r;
        assert Join([[]] + r, sep) == [sep] + Join(r, sep);
      } else {
        JoinGrowsHead(r, s[0], sep);
      }
      assert s == [s[0]] + s[1..];
    }
  }

  lemma JoinGrowsHead(r: seq<string>, c: char, sep: char)
    requires r != []
    ensures Join([[c] + r[0]] + r[1..], sep) == [c] + Join(r, sep)
  {
    if |r| > 1 {
      assert ([[c] + r[0]] + r[1..])[1..] == r[1..];
      assert [c] + r[0] + [sep] + Join(r[1..], sep) == [c] + (r[0] + [sep] + Join(r[1..], sep));
    } else {
      assert [[c] + r[0]] + r[1..] == [[c] + r[0]];
    }
  }

  /** A part without the separator, up to the first one. */
  lemma {:induction false} SplitCons(a: string, s: string, sep: char)
    requires sep !in a
    ensures Split(a + [sep] + s, sep) == [a] + Split(s, sep)
    ensures Split(a, sep) == [a]
  {
    if a == [] {
      assert [] + [sep] + s == [sep] + s;
      assert ([sep] + s)[1..] == s;
    } else {
      assert (a + [sep] + s)[1..] == a[1..] + [sep] + s;
      SplitCons(a[1..], s, sep);
      assert [a[0]] + a[1..] == a;
      assert ([a[1..]] + Split(s, sep))[1..] == Split(s, sep);
    }
  }

  lemma {:induction false} SplitJoin(parts: seq<string>, sep: char)
    requires parts != [] && Clean(parts, sep)
    ensures Split(Join(parts, sep), sep) == parts
  {
    if |parts| == 1 {
      SplitCons(parts[0], [], sep);
      assert parts == [parts[0]];
    } else {
      SplitJoin(parts[1..], sep);
      SplitCons(parts[0], Join(parts[1..], sep), sep);
      assert parts == [parts[0]] + parts[1..];
    }
  }

  lemma {:induction false} CleanPart(s: string, sep: char, other: char, i: nat)
    requires other !in s && i < |Split(s, sep)|
    ensures other !in Split(s, sep)[i]
  {
    if s != [] {
      if s[0] == sep {
        if i > 0 { CleanPart(s[1..], sep, other, i - 1); }
      } else {
        CleanPart(s[1..], sep, other, i);
      }
    }
  }

  // ----- root's entry -----

  const RootPrefix := "root:"

  predicate IsRoot(line: string) { RootPrefix <= line }

  predicate WellFormed(line: string) { |Split(line, ':')| >= 7 }

  /** The first well-formed root line, or the number of lines. */
  function RootLine(lines: seq<string>): (i: nat)
    ensures i <= |lines|
    ensures i < |lines| ==> "root:" <= lines[i] && |Split(lines[i], ':')| >= 7
    ensures forall j :: 0 <= j < i ==> !("root:" <= lines[j] && |Split(lines[j], ':')| >= 7)
  {
    if lines == [] || (IsRoot(lines[0]) && WellFormed(lines[0])) then 0 else RootLine(lines[1..]) + 1
  }

  function Patched(fields: seq<string>, shell: string, home: string): (r: seq<string>)
    requires |fields| >= 7
    ensures |r| == |fields|
  {
    fields[6 := if shell != "" then shell else fields[6]][5 := if home != "" then home else fields[5]]
  }

  function Synthetic(shell: string, home: string): string {
    "root:x:0:0:root:" + (if home == "" then "/root" else home) + ":" + (if shell == "" then "/bin/bash" else shell)
  }

  function Rewritten(data: string, shell: string, home: string): string {
    var lines := Split(data, '\n');
    var i := RootLine(lines);
    if i < |lines| then Join(lines[i := Join(Patched(Split(lines[i], ':'), shell, home), ':')], '\n')
    else Synthetic(shell, home) + "\n" + data
  }

  lemma {:induction false} RootLineIs(lines: seq<string>, i: nat)
    requires i <= |lines| && (i < |lines| ==> IsRoot(lines[i]) && WellFormed(lines[i]))
    requires forall j :: 0 <= j < i ==> !(IsRoot(lines[j]) && WellFormed(lines[j]))
    ensures RootLine(lines) == i
  {
    if lines != [] && i > 0 {
      assert forall j :: 0 <= j < i - 1 ==> lines[1..][j] == lines[j + 1];
      RootLineIs(lines[1..], i - 1);
      assert !(IsRoot(lines[0]) && WellFormed(lines[0]));
    }
  }

  method RewriteRootPasswd(data: string, wantShell: string, wantHome: string) returns (out: string, changed: bool)
    ensures out == Rewritten(data, wantShell, wantHome)
    ensures var lines := Split(data, '\n');
      !changed <==> RootLine(lines) < |lines| && var fields := Split(lines[RootLine(lines)], ':');
        Patched(fields, wantShell, wantHome) == fields
  {
    var lines := Split(data, '\n');
    for i := 0 to |lines|
      invariant forall j :: 0 <= j < i ==> !(IsRoot(lines[j]) && WellFormed(lines[j]))
    {
      if !(RootPrefix <= lines[i]) { continue; }
      var fields := Split(lines[i], ':');
      if |fields| < 7 { continue; }
      RootLineIs(lines, i);
      ghost var before := fields;
      changed := false;
      if wantShell != "" && fields[6] != wantShell {
        fields := fields[6 := wantShell];
        changed := true;
      }
      if wantHome != "" && fields[5] != wantHome {
        fields := fields[5 := wantHome];
        changed := true;
      }
      assert fields == Patched(before, wantShell, wantHome);
      if !changed {
        JoinSplit(lines[i], ':');
        JoinSplit(data, '\n');
        assert lines[i := lines[i]] == lines;
        return data, false;
      }
      assert fields != before;
      lines := lines[i := Join(fields, ':')];
      return Join(lines, '\n'), true;
    }
    RootLineIs(lines, |lines|);
    var home := wantHome;
    if home == "" { home := "/root"; }
    var shell := wantShell;
    if shell == "" { shell := "/bin/bash"; }
    var root := "root:x:0:0:root:" + home + ":" + shell;
    if |data| == 0 {
      assert root + "\n" + data == root + "\n";
      return root + "\n", true;
    }
    return root + "\n" + data, true;
  }

  /** The shell of the first root line, empty when there is none or it is malformed. */
  function ShellOf(lines: seq<string>): string {
    if lines == [] then ""
    else if !IsRoot(lines[0]) then ShellOf(lines[1..])
    else if !WellFormed(lines[0]) then ""
    else Split(lines[0], ':')[6]
  }

  /** Line i is the first that begins like root's. */
  predicate FirstRoot(lines: seq<string>, i: int) {
    0 <= i < |lines| && "root:" <= lines[i] && forall j :: 0 <= j < i ==> !("root:" <= lines[j])
  }

  method RootShellFromPasswd(data: string) returns (shell: string)
    ensures shell == ShellOf(Split(data, '\n'))
    ensures forall i :: FirstRoot(Split(data, '\n'), i) ==>
      shell == if |Split(Split(data, '\n')[i], ':')| >= 7 then Split(Split(data, '\n')[i], ':')[6] else ""
    ensures (forall line :: line in Split(data, '\n') ==> !("root:" <= line)) ==> shell == ""
  {
    var lines := Split(data, '\n');
    for i := 0 to |lines|
      invariant ShellOf(lines) == ShellOf(lines[i..])
      invariant forall j :: 0 <= j < i ==> !("root:" <= lines[j])
    {
      assert lines[i..][1..] == lines[i+1..];
      if !(RootPrefix <= lines[i]) { continue; }
      assert lines[i] in lines;
      var fields := Split(lines[i], ':');
      if |fields| < 7 { return ""; }
      return fields[6];
    }
    assert lines[|lines|..] == [];
    return "";
  }

  // ----- what the rewrite promises -----

  /** Values that fit in a field. */
  predicate FieldValue(v: string) { ':' !in v && '\n' !in v }

  lemma PatchedClean(line: string, shell: string, home: string)
    requires WellFormed(line) && '\n' !in line && FieldValue(shell) && FieldValue(home)
    ensures var fields := Patched(Split(line, ':'), shell, home);
      Clean(fields, ':') && Clean(fields, '\n')
  {
    JoinSplit(line, ':');
    forall i | 0 <= i < |Split(line, ':')|
      ensures '\n' !in Split(line, ':')[i]
    {
      CleanPart(line, ':', '\n', i);
    }
  }

  lemma {:induction false} JoinClean(parts: seq<string>, sep: char, other: char)
    requires parts != [] && Clean(parts, other) && sep != other
    ensures other !in Join(parts, sep)
  {
    if |parts| > 1 { JoinClean(parts[1..], sep, other); }
  }

  /** A rewritten root line: exactly fields 5 and 6 are replaced, where asked for. */
  lemma RootLineRewritten(data: string, shell: string, home: string)
    requires FieldValue(shell) && FieldValue(home) && RootLine(Split(data, '\n')) < |Split(data, '\n')|
    ensures var lines, i := Split(data, '\n'), RootLine(Split(data, '\n'));
      var fields := Patched(Split(lines[i], ':'), shell, home);
      && Split(Rewritten(data, shell, home), '\n') == lines[i := Join(fields, ':')]
      && Split(Join(fields, ':'), ':') == fields
      && IsRoot(Join(fields, ':'))
      && RootLine(Split(Rewritten(data, shell, home), '\n')) == i
  {
    var lines, i := Split(data, '\n'), RootLine(Split(data, '\n'));
    JoinSplit(data, '\n');
    var fields := Patched(Split(lines[i], ':'), shell, home);
    PatchedClean(lines[i], shell, home);
    SplitJoin(fields, ':');
    JoinClean(fields, ':', '\n');
    SplitJoin(lines[i := Join(fields, ':')], '\n');
    FieldsRoot(lines[i]);
    RootFields(fields);
    RootLineIs(lines[i := Join(fields, ':')], i);
  }

  /** A root line is one whose first field is root. */
  lemma FieldsRoot(line: string)
    requires IsRoot(line)
    ensures Split(line, ':')[0] == "root"
  {
    assert line == "root" + [':'] + line[5..];
    SplitCons("root", line[5..], ':');
  }

  lemma RootFields(fields: seq<string>)
    requires |fields| > 1 && fields[0] == "root"
    ensures IsRoot(Join(fields, ':'))
  {
    assert Join(fields, ':') == "root" + [':'] + Join(fields[1..], ':');
    assert Join(fields, ':')[..5] == "root:";
  }

  lemma SyntheticFields(shell: string, home: string)
    requires FieldValue(shell) && FieldValue(home)
    ensures var s := Synthetic(shell, home);
      && IsRoot(s) && '\n' !in s
      && Split(s, ':') == ["root", "x", "0", "0", "root", if home == "" then "/root" else home,
                           if shell == "" then "/bin/bash" else shell]
  {
    hide Split, Join;
    var h, sh := if home == "" then "/root" else home, if shell == "" then "/bin/bash" else shell;
    var parts := ["root", "x", "0", "0", "root", h, sh];
    SyntheticJoin(h, sh);
    assert Clean(parts, ':') && Clean(parts, '\n');
    SplitJoin(parts, ':');
    RootFields(parts);
    JoinClean(parts, ':', '\n');
  }

  lemma SyntheticJoin(h: string, sh: string)
    ensures Join(["root", "x", "0", "0", "root", h, sh], ':') == "root:x:0:0:root:" + h + ":" + sh
  {
    hide Join;
    JoinSeven("root", "x", "0", "0", "root", h, sh);
    assert "root" + ":" + "x" + ":" + "0" + ":" + "0" + ":" + "root" + ":" == "root:x:0:0:root:";
  }

  lemma JoinSeven(a: string, b: string, c: string, d: string, e: string, f: string, g: string)
    ensures Join([a, b, c, d, e, f, g], ':') == a + ":" + b + ":" + c + ":" + d + ":" + e + ":" + f + ":" + g
  {
    JoinStep(a, [b, c, d, e, f, g]);
    JoinStep(b, [c, d, e, f, g]);
    JoinStep(c, [d, e, f, g]);
    JoinStep(d, [e, f, g]);
    JoinStep(e, [f, g]);
    JoinStep(f, [g]);
  }

  lemma JoinStep(a: string, rest: seq<string>)
    requires rest != []
    ensures Join([a] + rest, ':') == a + ":" + Join(rest, ':')
  {
    assert ([a] + rest)[1..] == rest;
  }

  /** With no well-formed root line one is put first and every other line is kept. */
  lemma RootLineAdded(data: string, shell: string, home: string)
    requires FieldValue(shell) && FieldValue(home) && RootLine(Split(data, '\n')) == |Split(data, '\n')|
    ensures Split(Rewritten(data, shell, home), '\n') == [Synthetic(shell, home)] + Split(data, '\n')
    ensures RootLine(Split(Rewritten(data, shell, home), '\n')) == 0
  {
    SyntheticFields(shell, home);
    SplitCons(Synthetic(shell, home), data, '\n');
    RootLineIs([Synthetic(shell, home)] + Split(data, '\n'), 0);
  }

  /** Every line but root's, and every field of root's but home and shell, is kept
      byte for byte. */
  lemma OthersKept(data: string, shell: string, home: string)
    requires FieldValue(shell) && FieldValue(home)
    ensures var before, after := Split(data, '\n'), Split(Rewritten(data, shell, home), '\n');
      var i := RootLine(before);
      if i < |before| then
        && |after| == |before| && (forall j :: 0 <= j < |before| && j != i ==> after[j] == before[j])
        && |Split(after[i], ':')| == |Split(before[i], ':')|
        && (forall f :: 0 <= f < |Split(before[i], ':')| && f != 5 && f != 6 ==>
              Split(after[i], ':')[f] == Split(before[i], ':')[f])
        && Split(after[i], ':')[6] == (if shell != "" then shell else Split(before[i], ':')[6])
        && Split(after[i], ':')[5] == (if home != "" then home else Split(before[i], ':')[5])
      else
        && |after| == |before| + 1 && after[1..] == before
        && Split(after[0], ':') ==
             ["root", "x", "0", "0", "root", if home == "" then "/root" else home, if shell == "" then "/bin/bash" else shell]
  {
    hide Split, Join, Synthetic, Rewritten, IsRoot;
    if RootLine(Split(data, '\n')) < |Split(data, '\n')| {
      RootLineRewritten(data, shell, home);
    } else {
      SyntheticFields(shell, home);
      RootLineAdded(data, shell, home);
    }
  }

  /** changed is reported exactly when the bytes differ. */
  lemma ChangedIffDifferent(data: string, shell: string, home: string)
    requires FieldValue(shell) && FieldValue(home)
    ensures Rewritten(data, shell, home) == data <==>
      RootLine(Split(data, '\n')) < |Split(data, '\n')| &&
      Patched(Split(Split(data, '\n')[RootLine(Split(data, '\n'))], ':'), shell, home) ==
        Split(Split(data, '\n')[RootLine(Split(data, '\n'))], ':')
  {
    var lines, i := Split(data, '\n'), RootLine(Split(data, '\n'));
    JoinSplit(data, '\n');
    if i < |lines| {
      RootLineRewritten(data, shell, home);
      JoinSplit(lines[i], ':');
      assert lines[i := lines[i]] == lines;
    } else {
      assert |Rewritten(data, shell, home)| > |data|;
    }
  }

  /** Doing it again changes nothing. */
  lemma RewriteIdempotent(data: string, shell: string, home: string)
    requires FieldValue(shell) && FieldValue(home)
    ensures Rewritten(Rewritten(data, shell, home), shell, home) == Rewritten(data, shell, home)
  {
    var out := Rewritten(data, shell, home);
    OthersKept(data, shell, home);
    ChangedIffDifferent(out, shell, home);
    if RootLine(Split(data, '\n')) < |Split(data, '\n')| {
      RootLineRewritten(data, shell, home);
    } else {
      RootLineAdded(data, shell, home);
      SyntheticFields(shell, home);
    }
  }

  /** Is the first root line, if any, well formed? */
  predicate FirstRootGood(lines: seq<string>) {
    lines == [] || (if IsRoot(lines[0]) then WellFormed(lines[0]) else FirstRootGood(lines[1..]))
  }

  lemma {:induction false} ShellOfFirst(lines: seq<string>)
    ensures RootLine(lines) < |lines| && FirstRootGood(lines) ==> ShellOf(lines) == Split(lines[RootLine(lines)], ':')[6]
    ensures !FirstRootGood(lines) ==> ShellOf(lines) == ""
  {
    if lines != [] && !IsRoot(lines[0]) {
      ShellOfFirst(lines[1..]);
    }
  }

  lemma {:induction false} FirstRootGoodKept(lines: seq<string>, i: nat, line: string)
    requires i < |lines| && IsRoot(line) && WellFormed(line) && IsRoot(lines[i]) && WellFormed(lines[i])
    ensures FirstRootGood(lines[i := line]) == FirstRootGood(lines)
  {
    if i > 0 {
      assert lines[i := line][1..] == lines[1..][i - 1 := line];
      FirstRootGoodKept(lines[1..], i - 1, line);
    }
  }

  /** The reader finds the wanted shell exactly when the first root line is well
      formed or none is; a malformed root line ahead of the one that was rewritten
      hides it. */
  lemma ReadsBackIff(data: string, shell: string, home: string)
    requires FieldValue(shell) && FieldValue(home) && shell != ""
    ensures ShellOf(Split(Rewritten(data, shell, home), '\n')) == shell <==>
      FirstRootGood(Split(data, '\n')) || RootLine(Split(data, '\n')) == |Split(data, '\n')|
  {
    var lines, i := Split(data, '\n'), RootLine(Split(data, '\n'));
    var after := Split(Rewritten(data, shell, home), '\n');
    ShellOfFirst(after);
    OthersKept(data, shell, home);
    if i < |lines| {
      RootLineRewritten(data, shell, home);
      FirstRootGoodKept(lines, i, after[i]);
    } else {
      RootLineAdded(data, shell, home);
      SyntheticFields(shell, home);
    }
  }
}
