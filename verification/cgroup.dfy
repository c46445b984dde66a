/** Container ids from cgroup lines: the parser undoes the layouts it documents, and never returns anything else. */
module Cgroup {
  import opened Common
  import opened Strings

  const DOCKER := "docker-"
  const CRI := "cri-containerd-"
  const SCOPE := ".scope"

  // ---------- string library ----------

  predicate HasSuffix(s: string, suffix: string) { |suffix| <= |s| && s[|s| - |suffix|..] == suffix }

  function TrimPrefix(s: string, prefix: string): string { if HasPrefix(s, prefix) then s[|prefix|..] else s }

  function TrimSuffix(s: string, suffix: string): string { if HasSuffix(s, suffix) then s[..|s| - |suffix|] else s }

  /** Unicode white space. */
  predicate IsSpace(c: char) {
    var n := c as int;
    9 <= n <= 13 || n == 32 || n == 0x85 || n == 0xA0 || n == 0x1680 || 0x2000 <= n <= 0x200A
    || n == 0x2028 || n == 0x2029 || n == 0x202F || n == 0x205F || n == 0x3000
  }

  function TrimLeft(s: string): string { if s != [] && IsSpace(s[0]) then TrimLeft(s[1..]) else s }

  function TrimRight(s: string): string {
    if s != [] && IsSpace(s[|s| - 1]) then TrimRight(s[..|s| - 1]) else s
  }

  function TrimSpace(s: string): string { TrimRight(TrimLeft(s)) }

  /** `strings.Index`. */
  function Index(s: string, sub: string): Option<nat> {
    if HasPrefix(s, sub) then Some(0)
    else if s == [] then None
    else
      match Index(s[1..], sub)
      case None => None
      case Some(i) => Some(i + 1)
  }

  // ---------- the parser ----------

  predicate IsHexDigit(c: char) { '0' <= c <= '9' || 'a' <= c <= 'f' }

  predicate IsHex(s: string) { forall i :: 0 <= i < |s| ==> IsHexDigit(s[i]) }

  predicate IsContainerID(id: string) { 12 <= |id| <= 64 && IsHex(id) }

  function Stripped(raw: string): string {
    TrimPrefix(TrimPrefix(TrimSuffix(TrimSpace(raw), SCOPE), DOCKER), CRI)
  }

  function Normalized(raw: string): string {
    var id := Stripped(raw);
    if |id| < 12 || !IsHex(id) then "" else if |id| > 64 then id[..64] else id
  }

  method NormalizeContainerID(raw: string) returns (r: string)
    ensures r == Normalized(raw)
  {
    var id := TrimSpace(raw);
    id := TrimSuffix(id, SCOPE);
    id := TrimPrefix(id, DOCKER);
    id := TrimPrefix(id, CRI);
    if |id| < 12 {
      return "";
    }
    for i := 0 to |id|
      invariant forall j :: 0 <= j < i ==> IsHexDigit(id[j])
    {
      if !IsHexDigit(id[i]) {
        return "";
      }
    }
    if |id| > 64 {
      id := id[..64];
    }
    return id;
  }

  /** The id between a marker and the next ".scope", or nothing. */
  function Between(line: string, marker: string): string {
    match Index(line, marker)
    case None => ""
    case Some(i) =>
      if i + |marker| > |line| then "" else
      var rest := line[i + |marker|..];
      match Index(rest, SCOPE)
      case None => ""
      case Some(end) => if end <= |rest| then Normalized(rest[..end]) else ""
  }

  function FirstID(parts: seq<string>): string {
    if parts == [] then "" else if Normalized(parts[0]) != "" then Normalized(parts[0]) else FirstID(parts[1..])
  }

  function Extracted(line: string): string {
    if Between(line, DOCKER) != "" then Between(line, DOCKER)
    else if Between(line, CRI) != "" then Between(line, CRI)
    else FirstID(Split(line, '/'))
  }

  lemma {:induction false} IndexFits(s: string, sub: string)
    ensures Index(s, sub).Some? ==> var i := Index(s, sub).value; i + |sub| <= |s| && s[i..i + |sub|] == sub
  {
    if s == [] || HasPrefix(s, sub) {
    } else {
      hide HasPrefix;
      IndexFits(s[1..], sub);
      if Index(s[1..], sub).Some? {
        var i := Index(s[1..], sub).value;
        assert s[1..][i..i + |sub|] == s[i + 1..i + 1 + |sub|];
      }
    }
  }

  method ExtractBetween(line: string, marker: string) returns (id: string)
    requires marker == DOCKER || marker == CRI
    ensures id == Between(line, marker)
  {
    var idx := Index(line, marker);
    if idx.Some? {
      IndexFits(line, marker);
      var rest := line[idx.value + |marker|..];
      var end := Index(rest, SCOPE);
      if end.Some? {
        IndexFits(rest, SCOPE);
        id := NormalizeContainerID(rest[..end.value]);
        return;
      }
    }
    return "";
  }

  method ExtractContainerIDFromCgroupLine(line: string) returns (id: string)
    ensures id == Extracted(line)
  {
    id := ExtractBetween(line, DOCKER);
    if id != "" {
      return;
    }
    id := ExtractBetween(line, CRI);
    if id != "" {
      return;
    }
    var parts := Split(line, '/');
    for i := 0 to |parts|
      invariant FirstID(parts) == FirstID(parts[i..])
    {
      id := NormalizeContainerID(parts[i]);
      if id != "" {
        return;
      }
      assert parts[i..][1..] == parts[i + 1..];
    }
    return "";
  }

  // ---------- what comes out ----------

  lemma {:induction false} FirstIsID(parts: seq<string>)
    ensures FirstID(parts) == "" || IsContainerID(FirstID(parts))
  {
    if parts == [] {
    } else if Normalized(parts[0]) == "" {
      FirstIsID(parts[1..]);
    }
  }

  /** Anything returned is 12 to 64 lowercase hexadecimal digits. */
  lemma {:induction false} ExtractedIsID(line: string)
    ensures Extracted(line) == "" || IsContainerID(Extracted(line))
  {
    FirstIsID(Split(line, '/'));
  }

  lemma PrefixChars(s: string, m: string)
    ensures HasPrefix(s, m) <==> |m| <= |s| && forall i :: 0 <= i < |m| ==> s[i] == m[i]
  {
    assert |m| <= |s| ==> forall i :: 0 <= i < |m| ==> s[..|m|][i] == s[i];
  }

  lemma NothingToStrip(id: string)
    requires IsContainerID(id)
    ensures !HasSuffix(id, SCOPE) && !HasPrefix(id, DOCKER) && !HasPrefix(id, CRI)
  {
    assert IsHexDigit(id[1]) && IsHexDigit(id[|id| - 2]);
    assert id[|id| - 6..][4] == id[|id| - 2] && SCOPE[4] == 'p';
    PrefixChars(id, DOCKER);
    PrefixChars(id, CRI);
    assert DOCKER[1] == 'o' && CRI[1] == 'r';
  }

  /** A container id is left alone. */
  lemma IDNormalizesToItself(id: string)
    requires IsContainerID(id)
    ensures Normalized(id) == id
  {
    assert IsHexDigit(id[0]) && IsHexDigit(id[|id| - 1]);
    NothingToStrip(id);
    hide HasPrefix, HasSuffix;
  }

  /** Normalising twice is normalising once. */
  lemma NormalizeIdempotent(raw: string)
    ensures Normalized(Normalized(raw)) == Normalized(raw)
  {
    if Normalized(raw) != "" { IDNormalizesToItself(Normalized(raw)); }
  }

  // ---------- finding the markers ----------

  /** No proper end of `m` is also a beginning of it. */
  predicate Borderless(m: string) { forall j :: 0 < j < |m| ==> !HasPrefix(m, m[j..]) }

  lemma NoStraddle(a: string, b: string, m: string)
    requires !HasPrefix(a, m) && (|a| < |m| ==> !HasPrefix(b, m[|a|..]))
    ensures !HasPrefix(a + b, m)
  {
    PrefixChars(a + b, m);
    PrefixChars(a, m);
    if |a| < |m| {
      PrefixChars(b, m[|a|..]);
      assert forall i :: 0 <= i < |m| - |a| ==> m[|a|..][i] == m[|a| + i];
      assert forall i :: 0 <= i < |b| ==> (a + b)[|a| + i] == b[i];
    }
  }

  /** The first occurrence of a borderless marker after a prefix free of it is where it was put. */
  lemma {:induction false} IndexAfterPrefix(prefix: string, m: string, rest: string)
    requires Borderless(m) && m != "" && Index(prefix, m).None?
    ensures Index(prefix + m + rest, m) == Some(|prefix|)
  {
    var s := prefix + m + rest;
    if prefix == [] {
      assert s[..|m|] == m;
    } else {
      assert s[1..] == prefix[1..] + m + rest;
      IndexAfterPrefix(prefix[1..], m, rest);
      assert s == prefix + (m + rest);
      if |prefix| < |m| {
        var border := m[|prefix|..];
        assert (m + rest)[..|border|] == m[..|border|];
      }
      NoStraddle(prefix, m + rest, m);
    }
  }

  /** A marker absent from both parts and unable to start in the first and end in the second is absent from the
      whole. */
  lemma {:induction false} AbsentFromBoth(a: string, b: string, m: string)
    requires m != "" && Index(a, m).None? && Index(b, m).None?
    requires forall j :: 0 < j < |m| ==> !HasPrefix(b, m[j..])
    ensures Index(a + b, m).None?
  {
    if a == [] {
      assert a + b == b;
    } else {
      assert (a + b)[1..] == a[1..] + b;
      AbsentFromBoth(a[1..], b, m);
      NoStraddle(a, b, m);
    }
  }

  lemma {:induction false} AbsentWithout(s: string, m: string, i: nat)
    requires i < |m| && m[i] !in s
    ensures Index(s, m).None?
  {
    PrefixChars(s, m);
    if s == [] {
    } else {
      AbsentWithout(s[1..], m, i);
    }
  }

  /** Enough for "docker-" to be absent. */
  lemma {:induction false} NoDockerIn(s: string)
    requires forall i :: 0 <= i < |s| - 1 ==> s[i + 1] == 'o' ==> s[i] != 'd'
    ensures Index(s, DOCKER).None?
  {
    PrefixChars(s, DOCKER);
    assert DOCKER[0] == 'd' && DOCKER[1] == 'o';
    assert |s| > 1 ==> s[0 + 1] == 'o' ==> s[0] != 'd';
    if s == [] {
    } else {
      NoDockerIn(s[1..]);
    }
  }

  lemma MarkersAreBorderless()
    ensures Borderless(DOCKER) && Borderless(CRI) && Borderless(SCOPE)
  {
    forall j | 0 < j < |DOCKER| ensures !HasPrefix(DOCKER, DOCKER[j..]) { assert DOCKER[j..][0] == DOCKER[j] != 'd'; }
    forall j | 0 < j < |SCOPE| ensures !HasPrefix(SCOPE, SCOPE[j..]) { assert SCOPE[j..][0] == SCOPE[j] != '.'; }
    forall j | 0 < j < |CRI| ensures !HasPrefix(CRI, CRI[j..]) {
      if j == 4 { assert CRI[4..][1] == 'o'; } else { assert CRI[j..][0] == CRI[j] != 'c'; }
    }
  }

  // ---------- the documented layouts ----------

  lemma ScopeEnds(id: string)
    requires IsContainerID(id)
    ensures Index(id + SCOPE, SCOPE) == Some(|id|) && (id + SCOPE)[..|id|] == id
  {
    MarkersAreBorderless();
    assert '.' !in id;
    AbsentWithout(id, SCOPE, 0);
    IndexAfterPrefix(id, SCOPE, "");
    assert id + SCOPE + "" == id + SCOPE;
  }

  lemma BetweenFinds(prefix: string, marker: string, id: string)
    requires (marker == DOCKER || marker == CRI) && Index(prefix, marker).None? && IsContainerID(id)
    ensures Between(prefix + marker + (id + SCOPE), marker) == id
  {
    MarkersAreBorderless();
    var line := prefix + marker + (id + SCOPE);
    IndexAfterPrefix(prefix, marker, id + SCOPE);
    assert line[|prefix| + |marker|..] == id + SCOPE;
    ScopeEnds(id);
    IDNormalizesToItself(id);
  }

  /** `<prefix>docker-<id>.scope` */
  lemma DockerScope(prefix: string, id: string)
    requires IsContainerID(id) && Index(prefix, DOCKER).None?
    ensures Extracted(prefix + DOCKER + (id + SCOPE)) == id
  {
    BetweenFinds(prefix, DOCKER, id);
  }

  lemma NoDockerInCri(id: string)
    requires IsContainerID(id)
    ensures var tail := CRI + (id + SCOPE);
      Index(tail, DOCKER).None? && forall j :: 0 < j < |DOCKER| ==> !HasPrefix(tail, DOCKER[j..])
  {
    var tail := CRI + (id + SCOPE);
    forall i | 0 <= i < |tail| - 1 && tail[i + 1] == 'o' ensures tail[i] != 'd' {
      assert forall j :: 0 <= j < |id| ==> IsHexDigit(id[j]) && id[j] != 'o';
      assert 15 <= i + 1 ==> tail[i + 1] == (id + SCOPE)[i + 1 - 15];
      assert 15 + |id| <= i + 1 ==> tail[i + 1] == SCOPE[i + 1 - 15 - |id|];
      assert 15 + |id| < i + 1 ==> tail[i] == SCOPE[i - 15 - |id|];
    }
    NoDockerIn(tail);
    forall j | 0 < j < |DOCKER| ensures !HasPrefix(tail, DOCKER[j..]) {
      if j == 2 {
        assert DOCKER[2..][1] == 'k' && tail[1] == 'r';
      } else {
        assert DOCKER[j..][0] == DOCKER[j] != 'c' && tail[0] == 'c';
      }
    }
  }

  /** `<prefix>cri-containerd-<id>.scope` */
  lemma CriScope(prefix: string, id: string)
    requires IsContainerID(id) && Index(prefix, CRI).None? && Index(prefix, DOCKER).None?
    ensures Extracted(prefix + CRI + (id + SCOPE)) == id
  {
    hide Index, HasPrefix, Normalized, FirstID, Split;
    BetweenFinds(prefix, CRI, id);
    var tail := CRI + (id + SCOPE);
    assert prefix + CRI + (id + SCOPE) == prefix + tail;
    NoDockerInCri(id);
    AbsentFromBoth(prefix, tail, DOCKER);
  }

  lemma {:induction false} SplitLast(a: string, sep: char, b: string)
    requires sep !in b
    ensures Split(a + [sep] + b, sep) == Split(a, sep) + [b]
  {
    var s := a + [sep] + b;
    if a == [] {
      assert s[1..] == b;
      SplitWhole(b, sep);
    } else {
      assert s[1..] == a[1..] + [sep] + b;
      SplitLast(a[1..], sep, b);
    }
  }

  lemma {:induction false} FirstAppend(parts: seq<string>, p: string)
    requires FirstID(parts) == ""
    ensures FirstID(parts + [p]) == Normalized(p)
  {
    if parts == [] {
    } else {
      assert (parts + [p])[1..] == parts[1..] + [p];
      FirstAppend(parts[1..], p);
    }
  }

  /** The first part that is an id wins, whatever follows it. */
  lemma {:induction false} FirstPartWins(before: seq<string>, p: string, after: seq<string>)
    requires FirstID(before) == "" && Normalized(p) != ""
    ensures FirstID(before + [p] + after) == Normalized(p)
  {
    hide Normalized;
    if before == [] {
      assert (before + [p] + after)[0] == p;
    } else {
      assert (before + [p] + after)[1..] == before[1..] + [p] + after;
      FirstPartWins(before[1..], p, after);
    }
  }

  lemma {:induction false} FirstIDIff(parts: seq<string>)
    ensures FirstID(parts) == "" <==> forall i :: 0 <= i < |parts| ==> Normalized(parts[i]) == ""
  {
    hide Normalized;
    if parts == [] {
    } else {
      FirstIDIff(parts[1..]);
      assert forall i :: 0 < i < |parts| ==> parts[i] == parts[1..][i - 1];
    }
  }

  /** An attempt that finds no id never keeps a later one from finding one. */
  lemma NothingFoundIff(line: string)
    ensures Extracted(line) == "" <==>
      && Between(line, DOCKER) == "" && Between(line, CRI) == ""
      && forall i :: 0 <= i < |Split(line, '/')| ==> Normalized(Split(line, '/')[i]) == ""
  {
    hide Normalized, Between, FirstID, Split;
    FirstIDIff(Split(line, '/'));
    assert Extracted(line) == "" <==>
      Between(line, DOCKER) == "" && Between(line, CRI) == "" && FirstID(Split(line, '/')) == "";
  }

  lemma LastPartFound(directory: string, id: string)
    requires IsContainerID(id) && FirstID(Split(directory, '/')) == ""
    ensures FirstID(Split(directory + "/" + id, '/')) == id
  {
    assert '/' !in id by { assert forall i :: 0 <= i < |id| ==> IsHexDigit(id[i]); }
    SplitLast(directory, '/', id);
    FirstAppend(Split(directory, '/'), id);
    IDNormalizesToItself(id);
  }

  /** `<directory>/<id>` when the directory holds no marker and no part that is itself an id. */
  lemma PlainPath(directory: string, id: string)
    requires IsContainerID(id) && Index(directory, DOCKER).None? && Index(directory, CRI).None?
    requires FirstID(Split(directory, '/')) == ""
    ensures Extracted(directory + "/" + id) == id
  {
    var tail := "/" + id;
    assert directory + "/" + id == directory + tail;
    assert '-' !in tail by { assert forall i :: 0 <= i < |id| ==> IsHexDigit(id[i]); }
    AbsentWithout(tail, DOCKER, 6);
    AbsentWithout(tail, CRI, 14);
    forall j | 0 < j < |DOCKER| ensures !HasPrefix(tail, DOCKER[j..]) { assert DOCKER[j..][0] == DOCKER[j] != '/'; }
    forall j | 0 < j < |CRI| ensures !HasPrefix(tail, CRI[j..]) { assert CRI[j..][0] == CRI[j] != '/'; }
    AbsentFromBoth(directory, tail, DOCKER);
    AbsentFromBoth(directory, tail, CRI);
    LastPartFound(directory, id);
  }

  lemma {:induction false} TrimLeftShortens(s: string)
    ensures |TrimLeft(s)| <= |s|
  {
    if s == [] {
    } else if IsSpace(s[0]) {
      TrimLeftShortens(s[1..]);
    }
  }

  lemma {:induction false} TrimRightShortens(s: string)
    ensures |TrimRight(s)| <= |s|
  {
    if s == [] {
    } else if IsSpace(s[|s| - 1]) {
      TrimRightShortens(s[..|s| - 1]);
    }
  }

  /** Stripping only shortens. */
  lemma ShortIsNoID(raw: string)
    requires |raw| < 12
    ensures Normalized(raw) == ""
  {
    TrimLeftShortens(raw);
    TrimRightShortens(TrimLeft(raw));
  }

  lemma {:induction false} NoIDAmong(parts: seq<string>)
    requires forall i :: 0 <= i < |parts| ==> |parts[i]| < 12
    ensures FirstID(parts) == ""
  {
    if parts == [] {
    } else {
      ShortIsNoID(parts[0]);
      NoIDAmong(parts[1..]);
    }
  }

  lemma DockerDirectory()
    ensures var d := "0::/docker";
      Index(d, DOCKER).None? && Index(d, CRI).None? && FirstID(Split(d, '/')) == ""
  {
    hide Index, Normalized, FirstID, Split;
    var d := "0::/docker";
    assert '-' !in d;
    AbsentWithout(d, DOCKER, 6);
    AbsentWithout(d, CRI, 14);
    assert d == "0::" + ['/'] + "docker";
    SplitFirst("0::", '/', "docker");
    SplitWhole("docker", '/');
    assert Split(d, '/') == ["0::", "docker"];
    NoIDAmong(["0::", "docker"]);
  }

  /** `0::/docker/<id>` */
  lemma DockerPath(id: string)
    requires IsContainerID(id)
    ensures Extracted("0::/docker" + "/" + id) == id
  {
    DockerDirectory();
    PlainPath("0::/docker", id);
  }

  // ---------- normalisation strips what surrounds an id ----------

  predicate AllSpace(s: string) { forall i :: 0 <= i < |s| ==> IsSpace(s[i]) }

  /** Begins and ends with something that is not white space. */
  predicate Solid(s: string) { s != "" && !IsSpace(s[0]) && !IsSpace(s[|s| - 1]) }

  lemma {:induction false} TrimLeftTo(pre: string, s: string)
    requires AllSpace(pre) && s != "" && !IsSpace(s[0])
    ensures TrimLeft(pre + s) == s
  {
    if pre == [] {
      assert pre + s == s;
    } else {
      assert (pre + s)[1..] == pre[1..] + s;
      TrimLeftTo(pre[1..], s);
    }
  }

  lemma {:induction false} TrimRightTo(s: string, post: string)
    requires AllSpace(post) && s != "" && !IsSpace(s[|s| - 1])
    ensures TrimRight(s + post) == s
  {
    if post == [] {
      assert s + post == s;
    } else {
      assert (s + post)[..|s + post| - 1] == s + post[..|post| - 1];
      TrimRightTo(s, post[..|post| - 1]);
    }
  }

  lemma TrimSpaceTo(pre: string, s: string, post: string)
    requires AllSpace(pre) && AllSpace(post) && Solid(s)
    ensures TrimSpace(pre + s + post) == s
  {
    assert pre + s + post == pre + (s + post);
    TrimLeftTo(pre, s + post);
    TrimRightTo(s, post);
  }

  lemma HexIsPlain(body: string)
    requires IsHex(body) && |body| >= 12
    ensures Solid(body) && !HasSuffix(body, SCOPE) && !HasPrefix(body, DOCKER) && !HasPrefix(body, CRI)
  {
    assert IsHexDigit(body[0]) && IsHexDigit(body[1]) && IsHexDigit(body[|body| - 1]) && IsHexDigit(body[|body| - 2]);
    assert body[|body| - 6..][4] == body[|body| - 2] && SCOPE[4] == 'p';
    PrefixChars(body, DOCKER);
    PrefixChars(body, CRI);
    assert DOCKER[1] == 'o' && CRI[1] == 'r';
  }

  lemma ScopeStripped(s: string)
    ensures TrimSuffix(s + SCOPE, SCOPE) == s
  {
    assert (s + SCOPE)[|s|..] == SCOPE;
  }

  lemma MarkerStripped(marker: string, body: string)
    requires (marker == "" || marker == DOCKER || marker == CRI) && IsHex(body) && |body| >= 12
    ensures TrimPrefix(TrimPrefix(marker + body, DOCKER), CRI) == body
  {
    HexIsPlain(body);
    if marker == "" {
      assert marker + body == body;
    } else if marker == DOCKER {
      assert (marker + body)[..|DOCKER|] == DOCKER && (marker + body)[|DOCKER|..] == body;
    } else {
      PrefixChars(marker + body, DOCKER);
      assert (marker + body)[0] == 'c' && DOCKER[0] == 'd';
      assert (marker + body)[..|CRI|] == CRI && (marker + body)[|CRI|..] == body;
    }
  }

  lemma NoScopeAtEnd(marker: string, body: string)
    requires (marker == "" || marker == DOCKER || marker == CRI) && IsHex(body) && |body| >= 12
    ensures TrimSuffix(marker + body, SCOPE) == marker + body
  {
    HexIsPlain(body);
    var s := marker + body;
    assert s[|s| - 6..] == body[|body| - 6..];
  }

  /** White space around it, either marker before it and ".scope" after it are all stripped; what is left, if it is at
      least twelve lowercase hexadecimal digits, is returned up to the sixty-fourth. */
  lemma NormalizeStrips(pre: string, marker: string, body: string, suffix: string, post: string)
    requires AllSpace(pre) && AllSpace(post) && (marker == "" || marker == DOCKER || marker == CRI)
    requires (suffix == "" || suffix == SCOPE) && IsHex(body) && |body| >= 12
    ensures Normalized(pre + (marker + body + suffix) + post) == if |body| > 64 then body[..64] else body
  {
    var core := marker + body + suffix;
    HexIsPlain(body);
    assert core[0] == (if marker == "" then body[0] else marker[0]);
    assert core[|core| - 1] == (if suffix == "" then body[|body| - 1] else suffix[|suffix| - 1]);
    assert Solid(core);
    TrimSpaceTo(pre, core, post);
    if suffix == "" {
      assert core == marker + body;
      NoScopeAtEnd(marker, body);
    } else {
      ScopeStripped(marker + body);
    }
    MarkerStripped(marker, body);
    hide TrimSpace, TrimSuffix, TrimPrefix, HasPrefix, HasSuffix, Solid;
  }
}
