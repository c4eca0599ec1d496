/** The retry key of a Bash command: the binary and its targets, flags dropped. */
module BashKey {
  import opened Text

  /** Pipes, chains, redirects and substitutions are out of scope. */
  predicate Complex(cmd: string) {
    (exists i :: 0 <= i < |cmd| && cmd[i] in {'|', '&', ';', '<', '>', '`', '\n'}) ||
    (exists i :: 0 <= i < |cmd| - 1 && cmd[i] == '$' && cmd[i + 1] == '(')
  }

  /** The characters that put a command out of scope, and the two together. */
  ghost predicate Simple(cmd: string) {
    (forall c :: c in cmd ==> c !in {'|', '&', ';', '<', '>', '`', '\n'}) &&
    forall i :: 0 <= i < |cmd| - 1 ==> !(cmd[i] == '$' && cmd[i + 1] == '(')
  }

  lemma ComplexIs(cmd: string)
    ensures Complex(cmd) <==> !Simple(cmd)
  {
    if i :| 0 <= i < |cmd| && cmd[i] in {'|', '&', ';', '<', '>', '`', '\n'} { assert cmd[i] in cmd; }
    if c :| c in cmd && c in {'|', '&', ';', '<', '>', '`', '\n'} {
      var i :| 0 <= i < |cmd| && cmd[i] == c;
    }
  }

  /** What one argument adds: itself, the value of an option, or nothing. */
  function Target(f: string): seq<string> {
    if f == "" || f[0] != '-' then [f]
    else if AfterFirst(f, '=') != "" then [AfterFirst(f, '=')]
    else []
  }

  function Targets(fields: seq<string>): seq<string> {
    if fields == [] then [] else Targets(fields[..|fields| - 1]) + Target(fields[|fields| - 1])
  }

  predicate InScope(cmd: string) { !Complex(cmd) && |Fields(cmd)| >= 2 }

  /** The binary followed by what its arguments add. */
  function Parts(cmd: string): seq<string>
    requires InScope(cmd)
  {
    [Fields(cmd)[0]] + Targets(Fields(cmd)[1..])
  }

  method NormalizeBashRetryKey(cmd: string) returns (key: string, ok: bool)
    ensures ok <==> InScope(cmd)
    ensures ok <==> Simple(cmd) && |Fields(cmd)| >= 2
    ensures key == if InScope(cmd) then Join(Parts(cmd), ' ') else ""
  {
    ComplexIs(cmd);
    if Complex(cmd) {
      return "", false;
    }
    var fields := Fields(cmd);
    if |fields| < 2 {
      return "", false;
    }
    var parts := [fields[0]];
    var args := fields[1..];
    for i := 0 to |args|
      invariant parts == [fields[0]] + Targets(args[..i])
    {
      assert args[..i + 1][..i] == args[..i];
      var f := args[i];
      if !("-" <= f) {
        parts := parts + [f];
        continue;
      }
      var value := AfterFirst(f, '=');
      if value != "" {
        parts := parts + [value];
      }
    }
    assert args[..|args|] == args;
    return Join(parts, ' '), true;
  }

  lemma {:induction false} TargetsJoin(a: seq<string>, b: seq<string>)
    ensures Targets(a + b) == Targets(a) + Targets(b)
  {
    if b == [] {
      assert a + b == a;
    } else {
      assert (a + b)[..|a + b| - 1] == a + b[..|b| - 1];
      TargetsJoin(a, b[..|b| - 1]);
    }
  }

  lemma FlagDrops(before: seq<string>, flag: string, after: seq<string>)
    requires flag != "" && flag[0] == '-' && AfterFirst(flag, '=') == ""
    ensures Targets(before + [flag] + after) == Targets(before + after)
  {
    TargetsAppend(before, flag);
    var kept := before + [flag];
    assert Targets(kept) == Targets(before);
    TargetsJoin(kept, after);
    TargetsJoin(before, after);
  }

  /** What counts: a word that does not begin with a dash counts as it is, an
      option with a value counts as its value would, and one without does not. */
  lemma WhatCounts(before: seq<string>, name: string, value: string, after: seq<string>)
    requires '=' !in name
    ensures (name == "" || name[0] != '-') ==> Targets(before + [name] + after) == Targets(before) + [name] + Targets(after)
    ensures Targets(before + ["-" + name] + after) == Targets(before) + Targets(after)
    ensures value != "" ==>
      Targets(before + ["-" + name + "=" + value] + after) == Targets(before) + [value] + Targets(after)
  {
    var bare, valued := "-" + name, "-" + name + "=" + value;
    CutAt(bare, value, '=');
    assert valued == bare + ['='] + value;
    Middle(before, name, after);
    Middle(before, bare, after);
    Middle(before, valued, after);
  }

  lemma Middle(before: seq<string>, f: string, after: seq<string>)
    ensures Targets(before + [f] + after) == Targets(before) + Target(f) + Targets(after)
  {
    TargetsAppend(before, f);
    TargetsJoin(before + [f], after);
  }

  lemma TargetsAppend(fields: seq<string>, f: string)
    ensures Targets(fields + [f]) == Targets(fields) + Target(f)
  {
    assert (fields + [f])[..|fields|] == fields;
  }

  /** A bare flag anywhere among the arguments does not change the key. */
  lemma FlagsAreInvisible(cmd: string, cmd': string, before: seq<string>, flag: string, after: seq<string>)
    requires InScope(cmd) && InScope(cmd')
    requires flag != "" && flag[0] == '-' && AfterFirst(flag, '=') == ""
    requires before != [] && Fields(cmd) == before + after && Fields(cmd') == before + [flag] + after
    ensures Parts(cmd') == Parts(cmd)
  {
    FieldsWithFlag(Fields(cmd), Fields(cmd'), before, flag, after);
  }

  lemma FieldsWithFlag(fields: seq<string>, fields': seq<string>, before: seq<string>, flag: string, after: seq<string>)
    requires flag != "" && flag[0] == '-' && AfterFirst(flag, '=') == ""
    requires before != [] && fields == before + after && fields' == before + [flag] + after
    ensures fields[0] == fields'[0] && Targets(fields[1..]) == Targets(fields'[1..])
  {
    FlagDrops(before[1..], flag, after);
    assert fields[1..] == before[1..] + after;
    assert fields'[1..] == before[1..] + [flag] + after;
  }

  lemma {:induction false} TargetsAreWords(fields: seq<string>, p: string)
    requires forall f :: f in fields ==> ' ' !in f
    requires p in Targets(fields)
    ensures ' ' !in p
  {
    var init, last := fields[..|fields| - 1], fields[|fields| - 1];
    if p in Targets(init) {
      TargetsAreWords(init, p);
    } else {
      AfterFirstIs(last, '=');
    }
  }

  /** Two commands share a key exactly when they run the same binary on the same
      targets: no two target lists collide in the joined text. */
  lemma SameKeyIff(cmd: string, cmd': string)
    requires InScope(cmd) && InScope(cmd')
    ensures Join(Parts(cmd), ' ') == Join(Parts(cmd'), ' ') <==> Parts(cmd) == Parts(cmd')
  {
    PartsSplit(cmd);
    PartsSplit(cmd');
  }

  lemma PartsSplit(cmd: string)
    requires InScope(cmd)
    ensures Split(Join(Parts(cmd), ' '), ' ') == Parts(cmd)
  {
    forall f | f in Fields(cmd) ensures ' ' !in f {
      FieldsAreWords(cmd, f);
    }
    forall p | p in Parts(cmd) ensures ' ' !in p {
      if p in Targets(Fields(cmd)[1..]) { TargetsAreWords(Fields(cmd)[1..], p); }
    }
    SplitJoin(Parts(cmd), ' ');
  }
}
