/** Network names, and the staging and aside names built from them. */
module Names {
  import opened Decimals
  import opened Kernel
  import opened FileSystems

  // ------------------------------------------------------------------ the network name

  predicate NameChar(c: char) {
    'a' <= c <= 'z' || '0' <= c <= '9' || c == '-'
  }

  predicate ValidNetwork(name: string) {
    name != "" && forall i :: 0 <= i < |name| ==> NameChar(name[i])
  }

  const LETTERS := "abcdefghijklmnopqrstuvwxyz"

  lemma LetterSpelled(c: char)
    ensures 'a' <= c <= 'z' <==> c in LETTERS
  {
    if 'a' <= c <= 'z' { assert LETTERS[(c - 'a') as int] == c; }
  }

  /** Lower-case letters, digits and dashes, at least one of them. */
  lemma NetworkSpelled(name: string)
    ensures ValidNetwork(name) <==>
      name != "" && forall c :: c in name ==> c in LETTERS || c in "0123456789" || c == '-'
  {
    forall c: char ensures NameChar(c) <==> c in LETTERS || c in "0123456789" || c == '-' {
      LetterSpelled(c);
      if '0' <= c <= '9' { assert "0123456789"[(c - '0') as int] == c; }
    }
    hide NameChar;
    if ValidNetwork(name) {
      forall c | c in name ensures NameChar(c) {
        var i :| 0 <= i < |name| && name[i] == c;
        assert NameChar(name[i]);
      }
    }
    if forall c :: c in name ==> NameChar(c) {
      forall i | 0 <= i < |name| ensures NameChar(name[i]) { assert name[i] in name; }
    }
  }

  /** `Path::file_stem`: what is before the last dot, unless that dot leads the name. */
  function FileStem(name: string): string {
    match LastDot(name)
    case None => name
    case Some(i) => if i == 0 then name else name[..i]
  }

  function LastDot(name: string): (r: Option<nat>)
    ensures r.Some? ==> r.value < |name| && name[r.value] == '.' && forall j :: r.value < j < |name| ==> name[j] != '.'
    ensures r.None? ==> forall j :: 0 <= j < |name| ==> name[j] != '.'
  {
    if name == "" then None
    else if name[|name| - 1] == '.' then Some(|name| - 1)
    else LastDot(name[..|name| - 1])
  }

  const CONFIG_PREFIX := "config-"

  function StripPrefix(s: string): string {
    if CONFIG_PREFIX <= s then s[|CONFIG_PREFIX|..] else s
  }

  /** The chosen network, from the file name the config link points at. */
  function FromConfigLink(target: Option<string>): Result<string, ()> {
    match target
    case None => Err(())
    case Some(name) =>
      if ValidNetwork(StripPrefix(FileStem(name))) then Ok(StripPrefix(FileStem(name))) else Err(())
  }

  lemma StemOfToml(stem: string)
    requires stem != ""
    ensures FileStem(stem + ".toml") == stem
  {
    var name := stem + ".toml";
    var i := LastDot(name);
    assert name[|stem|] == '.';
    forall j | |stem| < j < |name| ensures name[j] != '.' { assert name[j] == "toml"[j - |stem| - 1]; }
  }

  /** The Linux link names every valid network unambiguously. */
  lemma LinuxLinkRoundTrip(net: string)
    requires ValidNetwork(net)
    ensures FromConfigLink(Some("config-" + net + ".toml")) == Ok(net)
  {
    StemOfToml("config-" + net);
    assert ("config-" + net)[|CONFIG_PREFIX|..] == net;
  }

  /** The bare macOS link does so exactly for the networks that do not themselves start with the prefix. */
  lemma MacLinkRoundTrip(net: string)
    requires ValidNetwork(net)
    ensures FromConfigLink(Some(net + ".toml")) == Ok(net) <==> !(CONFIG_PREFIX <= net)
  {
    StemOfToml(net);
  }

  /** The prefix is lost from a network that carries it. */
  lemma MacLinkLosesPrefix()
    ensures ValidNetwork("config-jura") && FromConfigLink(Some("config-jura.toml")) == Ok("jura")
  {
    LinuxLinkRoundTrip("jura");
    assert "config-" + "jura" + ".toml" == "config-jura.toml";
  }

  // ------------------------------------------------------------------ numbered names

  /** `candidate.n`. */
  function Numbered(candidate: Name, n: nat): Name {
    candidate + "." + Decimal(n)
  }

  lemma NumberedInjective(candidate: Name, m: nat, n: nat)
    requires Numbered(candidate, m) == Numbered(candidate, n)
    ensures m == n
  {
    assert Decimal(m) == Numbered(candidate, m)[|candidate| + 1..];
    assert Decimal(n) == Numbered(candidate, n)[|candidate| + 1..];
    DecimalInjective(m, n);
  }

  // ------------------------------------------------------------------ names that are free

  /** The candidate if it is free, else the least free `candidate.n` from 1 on. */
  ghost predicate LeastFree(fs: Fs, dir: Ino, candidate: Name, name: Name) {
    Bound(fs, dir, name) == None &&
    (name == candidate ||
      (Bound(fs, dir, candidate).Some? &&
       exists n: nat ::
         && n >= 1 && name == Numbered(candidate, n)
         && forall k: nat :: 1 <= k < n ==> Bound(fs, dir, Numbered(candidate, k)).Some?))
  }

  /** The name asked for, perhaps with a number behind it. */
  ghost predicate Stamped(candidate: Name, name: Name) {
    name == candidate || exists n: nat :: n >= 1 && name == Numbered(candidate, n)
  }

  lemma FreeStamped(fs: Fs, dir: Ino, candidate: Name, name: Name)
    requires LeastFree(fs, dir, candidate, name)
    ensures Stamped(candidate, name)
  {
  }

  lemma {:induction false} NumberedCount(names: set<Name>, candidate: Name, n: nat)
    requires forall k: nat :: 1 <= k <= n ==> Numbered(candidate, k) in names
    ensures n <= |names|
    decreases n
  {
    if n > 0 {
      forall k: nat | 1 <= k <= n - 1 ensures Numbered(candidate, k) in names - {Numbered(candidate, n)} {
        if Numbered(candidate, k) == Numbered(candidate, n) { NumberedInjective(candidate, k, n); }
      }
      NumberedCount(names - {Numbered(candidate, n)}, candidate, n - 1);
    }
  }

  /** The search ends because a directory is finite and different counters make different names. */
  method UniqueName(fs: FileSystem, dir: Ino, candidate: Name) returns (r: Result<Name, Errno>)
    requires fs.Valid() && IsDir(fs.st, dir)
    modifies fs`faults
    ensures fs.Looked()
    ensures r.Ok? ==> LeastFree(fs.st, dir, candidate, r.value)
    ensures r.Ok? ==> fs.faults == old(fs.faults)
    ensures fs.faults == old(fs.faults) ==> r.Ok?
  {
    var taken := fs.Exists(dir, candidate);
    if taken.Err? { return Err(taken.error); }
    if !taken.value { return Ok(candidate); }
    var n: nat := 1;
    ghost var names := fs.st.nodes[dir].entries.Keys;
    while true
      invariant n >= 1 && fs.Looked() && fs.faults == old(fs.faults)
      invariant forall k: nat :: 1 <= k < n ==> Bound(fs.st, dir, Numbered(candidate, k)).Some?
      decreases |names| + 1 - n
    {
      var name := Numbered(candidate, n);
      var used := fs.Exists(dir, name);
      if used.Err? { return Err(used.error); }
      if !used.value { return Ok(name); }
      n := n + 1;
      forall k: nat | 1 <= k <= n - 1
        ensures Numbered(candidate, k) in names
      {
        assert Bound(fs.st, dir, Numbered(candidate, k)).Some?;
      }
      NumberedCount(names, candidate, n - 1);
    }
  }

  // ------------------------------------------------------------------ staging and aside names

  function StagingName(net: Name, ts: string): Name { net + ".migrating-" + ts }
  function AsideName(net: Name, reason: string, ts: string): Name { net + "." + reason + "-" + ts }

  /** Any name `unique_name` can choose for `AsideName(net, reason, ts)`, whatever the timestamp. */
  predicate IsAside(net: Name, reason: string, name: Name) {
    net + "." + reason + "-" <= name
  }

  function BeforeDot(name: Name): Name {
    if name == "" || name[0] == '.' then "" else [name[0]] + BeforeDot(name[1..])
  }

  lemma {:induction false} BeforeFirstDot(net: Name, rest: string)
    requires forall i :: 0 <= i < |net| ==> net[i] != '.'
    ensures BeforeDot(net + "." + rest) == net
    decreases |net|
  {
    var name := net + "." + rest;
    if net != "" {
      assert name[1..] == net[1..] + "." + rest;
      BeforeFirstDot(net[1..], rest);
    }
  }

  lemma AsideIsAside(fs: Fs, dir: Ino, net: Name, reason: string, ts: string, name: Name)
    requires LeastFree(fs, dir, AsideName(net, reason, ts), name)
    ensures IsAside(net, reason, name)
  {
    assert AsideName(net, reason, ts) == net + "." + reason + "-" + ts;
  }

  const REPLACED := "replaced"
  const RESET := "reset"

  /** The names as they appear in a directory. */
  lemma NamesSpelled(net: Name, ts: string, name: Name)
    ensures IsAside(net, REPLACED, name) <==> net + ".replaced-" <= name
    ensures IsAside(net, RESET, name) <==> net + ".reset-" <= name
    ensures AsideName(net, REPLACED, ts) == net + ".replaced-" + ts && AsideName(net, RESET, ts) == net + ".reset-" + ts
    ensures StagingName(net, ts) == net + ".migrating-" + ts
  {
    assert net + "." + REPLACED + "-" == net + ".replaced-";
    assert net + "." + RESET + "-" == net + ".reset-";
  }

  /** The text before the first dot of every derived name is its network, and no derived name is itself a network. */
  lemma DerivedNames(net: Name, tag: string, name: Name)
    requires ValidNetwork(net) && net + "." + tag <= name
    ensures BeforeDot(name) == net && !ValidNetwork(name)
  {
    var rest := tag + name[|net + "." + tag|..];
    assert name == net + "." + rest;
    BeforeFirstDot(net, rest);
    assert name[|net|] == '.';
  }

  /** Staging, replaced and reset names never coincide, even across networks and timestamps. */
  lemma NamespacesDisjoint(net: Name, net': Name, ts: string, a: Name, b: Name)
    requires ValidNetwork(net) && ValidNetwork(net')
    requires IsAside(net, REPLACED, a) && IsAside(net', RESET, b)
    ensures a != b && a != StagingName(net', ts) && b != StagingName(net, ts)
    ensures !ValidNetwork(a) && !ValidNetwork(b) && !ValidNetwork(StagingName(net, ts))
  {
    hide ValidNetwork, IsAside, StagingName, BeforeDot;
    AsideDerived(net, REPLACED, a);
    AsideDerived(net', RESET, b);
    StagingDerived(net, ts);
    StagingDerived(net', ts);
  }

  lemma AsideDerived(net: Name, reason: string, name: Name)
    requires ValidNetwork(net) && IsAside(net, reason, name) && |reason| > 2
    ensures BeforeDot(name) == net && !ValidNetwork(name)
    ensures |name| > |net| + 3 && name[|net| + 1] == reason[0] && name[|net| + 3] == reason[2]
  {
    assert net + "." + (reason + "-") == net + "." + reason + "-";
    DerivedNames(net, reason + "-", name);
    TagChar(net, reason, name, 0);
    TagChar(net, reason, name, 2);
  }

  lemma StagingDerived(net: Name, ts: string)
    requires ValidNetwork(net)
    ensures BeforeDot(StagingName(net, ts)) == net && !ValidNetwork(StagingName(net, ts))
    ensures |StagingName(net, ts)| > |net| + 1 && StagingName(net, ts)[|net| + 1] == 'm'
  {
    assert net + "." + ".migrating-"[1..] == net + ".migrating-";
    DerivedNames(net, ".migrating-"[1..], StagingName(net, ts));
  }

  lemma TagChar(net: Name, reason: string, name: Name, k: nat)
    requires IsAside(net, reason, name) && k < |reason|
    ensures |name| > |net| + 1 + k && name[|net| + 1 + k] == reason[k]
  {
    assert (net + "." + reason + "-")[|net| + 1 + k] == reason[k];
  }

  /** Within one run: the network, its staging name and its aside names are three different names. */
  lemma RunNames(net: Name, ts: string, reason: string, a: Name)
    requires ValidNetwork(net) && IsAside(net, reason, a) && |reason| > 0 && reason[0] != 'm'
    ensures a != net && a != StagingName(net, ts) && net != StagingName(net, ts)
  {
    TagChar(net, reason, a, 0);
    assert StagingName(net, ts)[|net| + 1] == 'm';
  }
}
