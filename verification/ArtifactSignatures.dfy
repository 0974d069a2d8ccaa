/** What the signature of a download link opens: its own fields only, unless a key or run id breaks into
    lines. The signed message joins its five fields with newlines and does not escape them. */
module ArtifactSignatures {
  import opened Text
  import opened ArtifactLinks

  datatype Fields = Fields(key: string, run: string, scope: string, path: string, expires: string)

  function Lines(f: Fields): string {
    f.key + "\n" + (f.run + "\n" + (f.scope + "\n" + (f.path + "\n" + f.expires)))
  }

  // The fields the download handler reads from a link.
  function FieldsOf(link: Link): Fields {
    Fields(if Trim(link.openclawSessionKey) != "" then Trim(link.openclawSessionKey) else Trim(link.sessionKey),
           Trim(link.runId), SafeScope(Trim(link.scope)), SafePath(link.path), Trim(link.expires))
  }

  function Opens(f: Fields): Verdict {
    Granted(f.key, f.run, f.scope, f.path)
  }

  // Neither empty nor with white space at an end.
  predicate IsSolid(s: string) {
    s != "" && !IsSpace(s[0]) && !IsSpace(s[|s| - 1])
  }

  predicate IsNormal(f: Fields) {
    && IsSolid(f.key) && IsSolid(f.run) && IsSolid(f.path) && IsSolid(f.expires) && (f.scope == "" || IsSolid(f.scope))
    && SafeScope(f.scope) == f.scope && SafePath(f.path) == f.path
  }

  lemma {:induction false} SolidStays(s: string)
    requires IsSolid(s)
    ensures Trim(s) == s
  {
    TrimmedStays(s);
  }

  lemma {:induction false} TrimIsSolid(s: string)
    ensures Trim(s) == "" || IsSolid(Trim(s))
  {
    TrimTrims(s);
  }

  lemma {:induction false} SafePathIsSolid(raw: string)
    ensures SafePath(raw) == "" || IsSolid(SafePath(raw))
  {
    AcceptedExactly(raw);
    if SafePath(raw) != "" {
      SlashedStays(raw);
    }
  }

  lemma {:induction false} MessageIsLines(f: Fields)
    requires IsNormal(f)
    ensures Message(f.key, f.run, f.scope, f.path, f.expires) == Lines(f)
  {
    SolidStays(f.key);
    SolidStays(f.run);
    SolidStays(f.expires);
    hide Trim, SafePath, SafeScope;
    JoinFive(f.key, f.run, f.scope, f.path, f.expires);
  }

  lemma {:induction false} JoinFive(a: string, b: string, c: string, d: string, e: string)
    ensures Join([a, b, c, d, e], '\n') == Lines(Fields(a, b, c, d, e))
  {
    assert [d, e][1..] == [e] && [c, d, e][1..] == [d, e] && [b, c, d, e][1..] == [c, d, e];
    assert [a, b, c, d, e][1..] == [b, c, d, e];
    assert Join([e], '\n') == e;
    assert Join([d, e], '\n') == d + "\n" + e;
    assert Join([c, d, e], '\n') == c + "\n" + (d + "\n" + e);
    assert Join([b, c, d, e], '\n') == b + "\n" + (c + "\n" + (d + "\n" + e));
  }

  // ---- what the check and the mint sign ----

  // The bytes a link carries as its signature.
  function SignatureOf(link: Link): Option<seq<nat>> {
    HexDecode(Trim(link.sig))
  }

  /** A granted link carries the MAC of its own fields. */
  lemma {:induction false} GrantedIsSigned(mac: Mac, secret: string, link: Link, now: int)
    requires Check(mac, secret, link, now).Granted?
    ensures var f := FieldsOf(link);
      IsNormal(f) && Check(mac, secret, link, now) == Opens(f) && SignatureOf(link) == Some(mac(secret, Lines(f)))
  {
    var f := FieldsOf(link);
    TrimIsSolid(link.openclawSessionKey);
    TrimIsSolid(link.sessionKey);
    TrimIsSolid(link.runId);
    TrimIsSolid(link.expires);
    SafePathIsSolid(link.path);
    SafePathIsSolid(Trim(link.scope));
    SafeScopeIsStable(Trim(link.scope));
    SafePathIsStable(link.path);
    hide Trim, SafePath, SafeScope, HexEncode, HexDecode, Message;
    MessageIsLines(f);
    HexRoundTrip(mac(secret, Lines(f)));
  }

  /** A link that carries the MAC of its normal fields is granted until it expires. */
  lemma {:induction false} SignedIsGranted(mac: Mac, secret: string, f: Fields, now: int)
    requires IsNormal(f) && secret != "" && mac(secret, Lines(f)) != []
    requires ParseInt(f.expires).Some? && ParseInt(f.expires).value > 0 && now <= ParseInt(f.expires).value
    ensures var link := Link(f.key, f.key, f.run, f.scope, f.path, f.expires, HexEncode(mac(secret, Lines(f))));
      FieldsOf(link) == f && Check(mac, secret, link, now) == Opens(f) && SignatureOf(link) == Some(mac(secret, Lines(f)))
  {
    var bytes := mac(secret, Lines(f));
    var link := Link(f.key, f.key, f.run, f.scope, f.path, f.expires, HexEncode(bytes));
    SolidStays(f.key);
    SolidStays(f.run);
    SolidStays(f.expires);
    TrimmedStays(f.scope);
    HexRoundTrip(bytes);
    NoSpaceIsTrimmed(link.sig);
    hide Trim, SafePath, SafeScope, HexEncode, HexDecode, Message, ParseInt;
    MessageIsLines(f);
  }

  function MintedFields(sessionKey: string, runId: string, scope: string, path: string, now: int): Fields {
    Fields(Trim(sessionKey), Trim(runId), SafeScope(scope), SafePath(path), FormatInt(now + TTL_SECONDS))
  }

  lemma {:induction false} MintedIsSigned(mac: Mac, secret: string, sessionKey: string, runId: string, scope: string, path: string, now: int)
    requires Mint(mac, secret, sessionKey, runId, scope, path, now).Some?
    requires 0 < now + TTL_SECONDS <= MAX_INT64
    ensures var link, f := Mint(mac, secret, sessionKey, runId, scope, path, now).value, MintedFields(sessionKey, runId, scope, path, now);
      && secret != "" && IsNormal(f) && ParseInt(f.expires) == Some(now + TTL_SECONDS) && '\n' !in f.expires
      && link == Link(f.key, f.key, f.run, f.scope, f.path, f.expires, HexEncode(mac(secret, Lines(f))))
      && SignatureOf(link) == Some(mac(secret, Lines(f)))
  {
    var f := MintedFields(sessionKey, runId, scope, path, now);
    TrimIsSolid(sessionKey);
    TrimIsSolid(runId);
    SafePathIsSolid(scope);
    SafePathIsSolid(path);
    SafeScopeIsStable(scope);
    SafePathIsStable(path);
    NumberIsSolid(now + TTL_SECONDS);
    hide Trim, SafePath, SafeScope, HexEncode, HexDecode, Message, ParseInt, FormatInt;
    MessageIsLines(f);
    HexRoundTrip(mac(secret, Lines(f)));
    NoSpaceIsTrimmed(HexEncode(mac(secret, Lines(f))));
  }

  lemma {:induction false} NumberIsSolid(n: int)
    requires 0 <= n <= MAX_INT64
    ensures IsSolid(FormatInt(n)) && '\n' !in FormatInt(n) && ParseInt(FormatInt(n)) == Some(n)
  {
    ParseFormatInt(n);
    ParseFormatNat(n);
  }

  // ---- fields without newlines ----

  predicate OneLine(f: Fields) {
    '\n' !in f.key && '\n' !in f.run && '\n' !in f.scope && '\n' !in f.path && '\n' !in f.expires
  }

  lemma {:induction false} NewlinesOf(f: Fields)
    ensures Tally(Lines(f), '\n') == 4 + Tally(f.key, '\n') + Tally(f.run, '\n') + Tally(f.scope, '\n') + Tally(f.path, '\n') + Tally(f.expires, '\n')
  {
    var four := f.path + "\n" + f.expires;
    var three := f.scope + "\n" + four;
    var two := f.run + "\n" + three;
    Prefixed(f.path, f.expires);
    Prefixed(f.scope, four);
    Prefixed(f.run, three);
    Prefixed(f.key, two);
  }

  lemma {:induction false} Prefixed(a: string, rest: string)
    ensures Tally(a + "\n" + rest, '\n') == Tally(a, '\n') + 1 + Tally(rest, '\n')
  {
    TallyAdds(a + "\n", rest, '\n');
    TallyAdds(a, "\n", '\n');
    assert Tally("\n", '\n') == 1;
  }

  lemma {:induction false} LinesAreUnique(f: Fields, g: Fields)
    requires OneLine(f) && Lines(f) == Lines(g)
    ensures f == g
  {
    NewlinesOf(f);
    NewlinesOf(g);
    hide Lines;
    TalliesOf(f);
    TalliesOf(g);
    OneLineUnique(f, g);
  }

  lemma {:induction false} TalliesOf(f: Fields)
    ensures OneLine(f) <==> Tally(f.key, '\n') + Tally(f.run, '\n') + Tally(f.scope, '\n') + Tally(f.path, '\n') + Tally(f.expires, '\n') == 0
  {
    TallyOfNone(f.key, '\n');
    TallyOfNone(f.run, '\n');
    TallyOfNone(f.scope, '\n');
    TallyOfNone(f.path, '\n');
    TallyOfNone(f.expires, '\n');
  }

  lemma {:induction false} OneLineUnique(f: Fields, g: Fields)
    requires OneLine(f) && OneLine(g) && Lines(f) == Lines(g)
    ensures f == g
  {
    var f4, g4 := f.path + "\n" + f.expires, g.path + "\n" + g.expires;
    var f3, g3 := f.scope + "\n" + f4, g.scope + "\n" + g4;
    SplitUnique(f.key, g.key, f.run + "\n" + f3, g.run + "\n" + g3, '\n');
    SplitUnique(f.run, g.run, f3, g3, '\n');
    SplitUnique(f.scope, g.scope, f4, g4, '\n');
    SplitUnique(f.path, g.path, f.expires, g.expires, '\n');
  }

  // No other message has the MAC of this one.
  ghost predicate NoCollision(mac: Mac, secret: string, f: Fields) {
    forall m :: mac(secret, m) == mac(secret, Lines(f)) ==> m == Lines(f)
  }

  /** A signature opens its own fields only: whatever link carries the signature of a minted one and is
      granted, at whatever time, it is granted for the minted fields, provided these have no newline and the
      MAC no collision. */
  lemma {:induction false} SignatureOpensOwnFields(mac: Mac, secret: string, sessionKey: string, runId: string, scope: string, path: string, now: int, other: Link, later: int)
    requires Mint(mac, secret, sessionKey, runId, scope, path, now).Some? && 0 < now + TTL_SECONDS <= MAX_INT64
    requires OneLine(MintedFields(sessionKey, runId, scope, path, now)) && NoCollision(mac, secret, MintedFields(sessionKey, runId, scope, path, now))
    requires SignatureOf(other) == SignatureOf(Mint(mac, secret, sessionKey, runId, scope, path, now).value)
    requires Check(mac, secret, other, later).Granted?
    ensures Check(mac, secret, other, later) == Granted(Trim(sessionKey), Trim(runId), SafeScope(scope), SafePath(path))
    ensures later <= now + TTL_SECONDS
  {
    var f := MintedFields(sessionKey, runId, scope, path, now);
    MintedIsSigned(mac, secret, sessionKey, runId, scope, path, now);
    GrantedIsSigned(mac, secret, other, later);
    hide Mint, SignatureOf, Lines, ParseInt, Trim, SafePath, SafeScope, OneLine, FormatInt;
    assert Lines(FieldsOf(other)) == Lines(f);
    LinesAreUnique(f, FieldsOf(other));
  }

  // ---- line breaks ----

  // A newline between two characters that are not white space.
  predicate BreaksAt(s: string, i: int) {
    0 < i < |s| - 1 && s[i] == '\n' && !IsSpace(s[i - 1]) && !IsSpace(s[i + 1])
  }

  predicate Breaks(s: string) {
    exists i :: 0 < i < |s| - 1 && BreaksAt(s, i)
  }

  lemma {:induction false} NewlineIsSpace()
    ensures IsSpace('\n')
  {
  }

  lemma {:induction false} JoinBreaks(a: string, rest: string, i: int)
    requires IsSolid(a) && IsSolid(rest)
    ensures IsSolid(a + "\n" + rest)
    ensures BreaksAt(a + "\n" + rest, i) <==> BreaksAt(a, i) || i == |a| || BreaksAt(rest, i - |a| - 1)
  {
    NewlineIsSpace();
    hide IsSpace;
  }

  predicate AllSolid(f: Fields) {
    IsSolid(f.key) && IsSolid(f.run) && IsSolid(f.scope) && IsSolid(f.path) && IsSolid(f.expires)
  }

  // Where the k-th field ends.
  function End1(f: Fields): int { |f.key| }
  function End2(f: Fields): int { End1(f) + 1 + |f.run| }
  function End3(f: Fields): int { End2(f) + 1 + |f.scope| }
  function End4(f: Fields): int { End3(f) + 1 + |f.path| }

  lemma {:induction false} LinesBreak(f: Fields, i: int)
    requires AllSolid(f)
    ensures BreaksAt(Lines(f), i) <==>
      || i == End1(f) || i == End2(f) || i == End3(f) || i == End4(f)
      || BreaksAt(f.key, i) || BreaksAt(f.run, i - End1(f) - 1) || BreaksAt(f.scope, i - End2(f) - 1)
      || BreaksAt(f.path, i - End3(f) - 1) || BreaksAt(f.expires, i - End4(f) - 1)
  {
    hide IsSolid, BreaksAt;
    var four := f.path + "\n" + f.expires;
    var three := f.scope + "\n" + four;
    var two := f.run + "\n" + three;
    JoinBreaks(f.path, f.expires, i - End3(f) - 1);
    JoinBreaks(f.scope, four, i - End2(f) - 1);
    JoinBreaks(f.run, three, i - End1(f) - 1);
    JoinBreaks(f.key, two, i);
  }

  lemma {:induction false} UnbrokenUnique(f: Fields, g: Fields)
    requires AllSolid(f) && AllSolid(g) && Lines(f) == Lines(g)
    requires !Breaks(f.key) && !Breaks(f.run) && !Breaks(f.scope) && !Breaks(f.path) && !Breaks(f.expires)
    ensures f == g
  {
    OnlyEnds(f, g, End1(g));
    OnlyEnds(f, g, End2(g));
    OnlyEnds(f, g, End3(g));
    OnlyEnds(f, g, End4(g));
    SameEnds(f, g);
  }

  lemma {:induction false} OnlyEnds(f: Fields, g: Fields, i: int)
    requires AllSolid(f) && AllSolid(g) && Lines(f) == Lines(g)
    requires !Breaks(f.key) && !Breaks(f.run) && !Breaks(f.scope) && !Breaks(f.path) && !Breaks(f.expires)
    requires i == End1(g) || i == End2(g) || i == End3(g) || i == End4(g)
    ensures i == End1(f) || i == End2(f) || i == End3(f) || i == End4(f)
  {
    hide Lines, IsSolid;
    LinesBreak(g, i);
    LinesBreak(f, i);
    Unbroken(f.key, i);
    Unbroken(f.run, i - End1(f) - 1);
    Unbroken(f.scope, i - End2(f) - 1);
    Unbroken(f.path, i - End3(f) - 1);
    Unbroken(f.expires, i - End4(f) - 1);
    hide BreaksAt, Breaks;
  }

  lemma {:induction false} Unbroken(s: string, i: int)
    requires !Breaks(s)
    ensures !BreaksAt(s, i)
  {
  }

  lemma {:induction false} SameEnds(f: Fields, g: Fields)
    requires Lines(f) == Lines(g) && End1(f) == End1(g) && End2(f) == End2(g) && End3(f) == End3(g) && End4(f) == End4(g)
    ensures f == g
  {
    var whole := Lines(f);
    CutLines(f);
    CutLines(g);
  }

  lemma {:induction false} CutLines(f: Fields)
    ensures var whole := Lines(f);
      && 0 <= End1(f) < End2(f) < End3(f) < End4(f) < |whole|
      && f.key == whole[..End1(f)] && f.run == whole[End1(f) + 1..End2(f)] && f.scope == whole[End2(f) + 1..End3(f)]
      && f.path == whole[End3(f) + 1..End4(f)] && f.expires == whole[End4(f) + 1..]
  {
  }

  // Other fields with the same lines, the line break moved to another place.
  function MovedInKey(f: Fields, i: int): Fields
    requires BreaksAt(f.key, i)
  {
    f.(key := f.key[..i], run := f.key[i + 1..] + "\n" + f.run)
  }

  function MovedInRun(f: Fields, i: int): Fields
    requires BreaksAt(f.run, i)
  {
    f.(key := f.key + "\n" + f.run[..i], run := f.run[i + 1..])
  }

  lemma {:induction false} MovedKeepsLines(f: Fields, i: int)
    requires IsNormal(f)
    ensures BreaksAt(f.key, i) ==> var g := MovedInKey(f, i); IsNormal(g) && Lines(g) == Lines(f) && g != f
    ensures BreaksAt(f.run, i) ==> var g := MovedInRun(f, i); IsNormal(g) && Lines(g) == Lines(f) && g != f
  {
    hide SafePath, SafeScope, IsSpace;
    if BreaksAt(f.key, i) {
      assert f.key == f.key[..i] + "\n" + f.key[i + 1..];
      Regroup(f.key[..i], f.key[i + 1..], f.run, f.scope + "\n" + (f.path + "\n" + f.expires));
    }
    if BreaksAt(f.run, i) {
      assert f.run == f.run[..i] + "\n" + f.run[i + 1..];
      Regroup(f.key, f.run[..i], f.run[i + 1..], f.scope + "\n" + (f.path + "\n" + f.expires));
    }
  }

  lemma {:induction false} Regroup(a: string, b: string, c: string, rest: string)
    ensures (a + "\n" + b) + "\n" + (c + "\n" + rest) == a + "\n" + ((b + "\n" + c) + "\n" + rest)
  {
  }

  // ---- readings with and without a scope ----

  // The message without its last line.
  function Head(f: Fields): string {
    f.key + "\n" + (f.run + "\n" + (f.scope + "\n" + f.path))
  }

  // Where the fields stand in the head.
  lemma {:induction false} HeadLayout(f: Fields)
    ensures var w := Head(f);
      && |w| == End4(f) && Lines(f) == w + "\n" + f.expires
      && w[End1(f)] == '\n' && w[End2(f)] == '\n' && w[End3(f)] == '\n'
      && f.key == w[..End1(f)] && f.run == w[End1(f) + 1..End2(f)] && f.scope == w[End2(f) + 1..End3(f)] && f.path == w[End3(f) + 1..]
  {
  }

  lemma {:induction false} LastSplitUnique(a: string, b: string, x: string, y: string, sep: char)
    requires sep !in x && sep !in y && a + [sep] + x == b + [sep] + y
    ensures a == b && x == y
  {
    var whole := a + [sep] + x;
    assert forall i | |a| < i < |whole| :: whole[i] == x[i - |a| - 1] && whole[i] != sep;
    assert forall i | |b| < i < |whole| :: whole[i] == y[i - |b| - 1] && whole[i] != sep by {
      assert whole == b + [sep] + y;
    }
    assert whole[|a|] == sep && (b + [sep] + y)[|b|] == sep;
    assert |a| == |b|;
    assert a == whole[..|a|] && b == whole[..|b|];
    assert x == whole[|a| + 1..] && y == whole[|b| + 1..];
  }

  lemma {:induction false} SameHead(f: Fields, g: Fields)
    requires Lines(f) == Lines(g) && '\n' !in f.expires && '\n' !in g.expires
    ensures Head(f) == Head(g) && f.expires == g.expires
  {
    HeadLayout(f);
    HeadLayout(g);
    LastSplitUnique(Head(f), Head(g), f.expires, g.expires, '\n');
  }

  // Two newlines in a row between visible characters.
  predicate GapAt(s: string, i: int) {
    0 < i < |s| - 2 && s[i] == '\n' && s[i + 1] == '\n' && !IsSpace(s[i - 1]) && !IsSpace(s[i + 2])
  }

  // What follows a gap in the run id, up to the end of the path.
  function Rest(f: Fields, i: int): string
    requires GapAt(f.run, i)
  {
    f.run[i + 2..] + "\n" + (f.scope + "\n" + f.path)
  }

  // The run id has a gap after which everything up to the end of the path is itself a valid path.
  predicate Hides(f: Fields) {
    exists i :: 0 < i < |f.run| - 2 && GapAt(f.run, i) && SafePath(Rest(f, i)) == Rest(f, i)
  }

  // The unscoped reading: the gap stands for the empty scope.
  function Unscoped(f: Fields, i: int): Fields
    requires GapAt(f.run, i)
  {
    f.(run := f.run[..i], scope := "", path := Rest(f, i))
  }

  lemma {:induction false} UnscopedKeepsLines(f: Fields, i: int)
    requires IsNormal(f) && GapAt(f.run, i) && SafePath(Rest(f, i)) == Rest(f, i)
    ensures var g := Unscoped(f, i); IsNormal(g) && Lines(g) == Lines(f) && g != f
  {
    var g := Unscoped(f, i);
    hide IsSpace, SafePath;
    RestEnds(f, i);
    SplitRun(f, i);
    EmptyScope();
    hide SafeScope;
    assert Lines(g) == Lines(f) by {
      hide Head;
      HeadLayout(f);
      HeadLayout(g);
    }
  }

  lemma {:induction false} RestEnds(f: Fields, i: int)
    requires GapAt(f.run, i) && IsSolid(f.path)
    ensures IsSolid(Rest(f, i)) && IsSolid(f.run) ==> IsSolid(f.run[..i])
    ensures IsSolid(Rest(f, i))
  {
    hide IsSpace;
  }

  lemma {:induction false} SplitRun(f: Fields, i: int)
    requires GapAt(f.run, i)
    ensures Head(Unscoped(f, i)) == Head(f)
  {
    assert f.run == f.run[..i] + ("\n" + ("\n" + f.run[i + 2..]));
    GapGroups(f.run[..i], f.run[i + 2..], f.scope + "\n" + f.path);
  }

  lemma {:induction false} GapGroups(a: string, b: string, rest: string)
    ensures (a + ("\n" + ("\n" + b))) + "\n" + rest == a + "\n" + ("" + "\n" + (b + "\n" + rest))
  {
  }

  lemma {:induction false} EmptyScope()
    ensures SafeScope("") == ""
  {
    TrimmedStays("");
  }

  lemma {:induction false} RunAt(f: Fields, k: int)
    requires 0 <= k < |f.run|
    ensures End1(f) + 1 + k < |Head(f)| && Head(f)[End1(f) + 1 + k] == f.run[k]
  {
  }

  lemma {:induction false} ScopeAt(f: Fields, k: int)
    requires 0 <= k < |f.scope|
    ensures End2(f) + 1 + k < |Head(f)| && Head(f)[End2(f) + 1 + k] == f.scope[k] && f.scope[k] in f.scope
  {
  }

  lemma {:induction false} PathAt(f: Fields, k: int)
    requires 0 <= k < |f.path|
    ensures End3(f) + 1 + k < |Head(f)| && Head(f)[End3(f) + 1 + k] == f.path[k] && f.path[k] in f.path
  {
  }

  // From the end of the run id on, the only newlines are the two around the scope.
  lemma {:induction false} LateNewlines(f: Fields, j: int)
    requires '\n' !in f.scope && '\n' !in f.path && End2(f) <= j < |Head(f)| && Head(f)[j] == '\n'
    ensures j == End2(f) || j == End3(f)
  {
    HeadLayout(f);
    hide Head;
    if End2(f) < j < End3(f) {
      ScopeAt(f, j - End2(f) - 1);
    } else if j > End3(f) {
      PathAt(f, j - End3(f) - 1);
    }
  }

  // The characters next to the newlines between the fields.
  lemma {:induction false} HeadEdges(f: Fields)
    requires IsNormal(f)
    ensures var w := Head(f);
      && |w| == End4(f) && w[End1(f)] == '\n' && w[End2(f)] == '\n' && w[End3(f)] == '\n'
      && !IsSpace(w[End1(f) - 1]) && !IsSpace(w[End1(f) + 1]) && !IsSpace(w[End2(f) - 1]) && !IsSpace(w[End3(f) + 1])
      && (f.scope != "" ==> !IsSpace(w[End2(f) + 1]) && !IsSpace(w[End3(f) - 1]))
  {
    HeadLayout(f);
    hide IsSpace, SafePath, SafeScope;
    var w := Head(f);
    hide Head;
    assert f.key[|f.key| - 1] == w[End1(f) - 1] && f.run[0] == w[End1(f) + 1] && f.run[|f.run| - 1] == w[End2(f) - 1];
    assert f.path[0] == w[End3(f) + 1];
    if f.scope != "" {
      assert f.scope[0] == w[End2(f) + 1] && f.scope[|f.scope| - 1] == w[End3(f) - 1];
    }
  }

  // An unscoped head breaks after the key and has a gap after the run id.
  lemma {:induction false} UnscopedShape(g: Fields)
    requires IsNormal(g) && g.scope == ""
    ensures BreaksAt(Head(g), End1(g)) && GapAt(Head(g), End2(g))
    ensures g.path == Head(g)[End2(g) + 2..]
  {
    HeadLayout(g);
    HeadEdges(g);
    hide IsSpace, Head, IsNormal;
    assert |g.path| > 0 by { PathIsSolid(g); }
  }

  lemma {:induction false} PathIsSolid(g: Fields)
    requires IsNormal(g)
    ensures |g.path| > 0 && |g.key| > 0 && |g.run| > 0
  {
  }

  lemma {:induction false} BreakBefore(a: string, rest: string, j: int)
    requires IsSolid(a) && BreaksAt(a + "\n" + rest, j)
    ensures j < |a| ==> BreaksAt(a, j)
  {
    NewlineIsSpace();
    hide IsSpace;
  }

  // A line break of the head before the end of the run id comes after the key, or in one of the two.
  lemma {:induction false} BreakInKeyOrRun(f: Fields, j: int)
    requires IsNormal(f) && BreaksAt(Head(f), j) && j < End2(f)
    ensures j == End1(f) || Breaks(f.key) || Breaks(f.run)
  {
    hide IsSpace, SafePath, SafeScope;
    var tail := f.scope + "\n" + f.path;
    var rest := f.run + "\n" + tail;
    assert IsSolid(rest) by { AppendSolid(f.run, f.scope + "\n", f.path); }
    JoinBreaks(f.key, rest, j);
    if BreaksAt(rest, j - End1(f) - 1) {
      BreakBefore(f.run, tail, j - End1(f) - 1);
    }
  }

  lemma {:induction false} AppendSolid(a: string, middle: string, b: string)
    requires IsSolid(a) && IsSolid(b)
    ensures IsSolid(a + "\n" + (middle + b))
  {
    hide IsSpace;
  }

  // A gap of the head after the key lies inside the run id, or is the empty scope.
  lemma {:induction false} GapInRun(f: Fields, d: int)
    requires IsNormal(f) && '\n' !in f.scope && '\n' !in f.path && GapAt(Head(f), d) && d > End1(f)
    ensures (f.scope == "" && d == End2(f)) || GapAt(f.run, d - End1(f) - 1)
  {
    HeadEdges(f);
    NewlineIsSpace();
    var w := Head(f);
    hide IsSpace, Head, IsNormal;
    if d + 1 >= End2(f) {
      LateNewlines(f, d + 1);
      if d >= End2(f) {
        LateNewlines(f, d);
      }
    } else {
      assert d + 2 != End2(f) && d - 1 != End1(f);
      GapCopies(f, d - End1(f) - 1);
    }
  }

  lemma {:induction false} GapCopies(f: Fields, k: int)
    requires 0 < k < |f.run| - 2 && GapAt(Head(f), End1(f) + 1 + k)
    ensures GapAt(f.run, k)
  {
    RunAt(f, k - 1);
    RunAt(f, k);
    RunAt(f, k + 1);
    RunAt(f, k + 2);
    hide Head, IsSpace;
  }

  // The key of an unscoped reading ends within the key or the run id of the other, its run id after the key.
  lemma {:induction false} UnscopedEnds(f: Fields, g: Fields)
    requires IsNormal(f) && IsNormal(g) && g.scope == "" && Head(f) == Head(g) && '\n' !in f.scope && '\n' !in f.path
    ensures End1(g) < End2(f) && (End2(g) > End1(f) || Breaks(f.key) || Breaks(f.run))
  {
    NewlineIsSpace();
    UnscopedShape(g);
    HeadEdges(f);
    PathIsSolid(g);
    var w, d := Head(f), End2(g);
    hide IsSpace, Head, IsNormal, Breaks;
    if d >= End2(f) {
      LateNewlines(f, d);
      LateNewlines(f, d + 1);
    }
    if d <= End1(f) {
      BreakInKeyOrRun(f, End1(g));
    }
  }

  // Another reading without a scope: it is the same, or a field breaks, or the run id hides its path.
  lemma {:induction false} UnscopedReading(f: Fields, g: Fields)
    requires IsNormal(f) && IsNormal(g) && g.scope == "" && Head(f) == Head(g) && f.expires == g.expires
    requires '\n' !in f.scope && '\n' !in f.path
    ensures f == g || Breaks(f.key) || Breaks(f.run) || Hides(f)
  {
    hide Head, IsNormal, Breaks, Hides, IsSpace;
    UnscopedShape(g);
    UnscopedEnds(f, g);
    BreakInKeyOrRun(f, End1(g));
    if End1(g) == End1(f) && End2(g) > End1(f) {
      GapInRun(f, End2(g));
      HeadLayout(f);
      HeadLayout(g);
      if f.scope != "" || End2(g) != End2(f) {
        GapHides(f, g);
      }
    }
  }

  lemma {:induction false} GapHides(f: Fields, g: Fields)
    requires IsNormal(g) && Head(f) == Head(g) && GapAt(f.run, End2(g) - End1(f) - 1) && g.path == Head(g)[End2(g) + 2..]
    ensures Hides(f)
  {
    RestIs(f, End2(g) - End1(f) - 1);
    hide SafePath, IsSpace, Head;
  }

  lemma {:induction false} RestIs(f: Fields, i: int)
    requires GapAt(f.run, i)
    ensures Head(f)[End1(f) + 1 + i + 2..] == Rest(f, i)
  {
    var tail := f.run + "\n" + (f.scope + "\n" + f.path);
    assert Head(f)[End1(f) + 1..] == tail;
    assert Head(f)[End1(f) + 1 + i + 2..] == tail[i + 2..];
    assert f.run == f.run[..i + 2] + f.run[i + 2..];
    assert tail == f.run[..i + 2] + Rest(f, i);
  }

  // A scoped reading of an unscoped one would need two line breaks before the scope where there is one.
  lemma {:induction false} ScopedReading(f: Fields, g: Fields)
    requires IsNormal(f) && IsNormal(g) && f.scope == "" && g.scope != "" && '\n' !in f.path
    ensures Head(f) != Head(g) || Breaks(f.key) || Breaks(f.run)
  {
    if Head(f) == Head(g) {
      HeadEdges(g);
      HeadEdges(f);
      PathIsSolid(g);
      NewlineIsSpace();
      hide IsSpace, Head, IsNormal, Breaks;
      if End2(g) >= End2(f) {
        LateNewlines(f, End2(g));
        LateNewlines(f, End3(g));
      } else {
        BreakInKeyOrRun(f, End1(g));
        BreakInKeyOrRun(f, End2(g));
      }
    }
  }

  lemma {:induction false} OneReading(f: Fields, g: Fields)
    requires IsNormal(f) && IsNormal(g) && Lines(f) == Lines(g) && '\n' !in f.expires && '\n' !in g.expires
    requires '\n' !in f.scope && '\n' !in f.path
    ensures f == g || Breaks(f.key) || Breaks(f.run) || Hides(f)
  {
    SameHead(f, g);
    hide IsSpace, SafePath, SafeScope, IsSolid, Lines, Head, Breaks, Hides;
    if g.scope == "" {
      UnscopedReading(f, g);
    } else if f.scope == "" {
      ScopedReading(f, g);
    } else if !Breaks(f.key) && !Breaks(f.run) {
      OneLineDoesNotBreak(f.scope);
      OneLineDoesNotBreak(f.path);
      OneLineDoesNotBreak(f.expires);
      AreSolid(f);
      AreSolid(g);
      UnbrokenUnique(f, g);
    }
  }

  // ---- exactly when a signature opens its own fields only ----

  lemma {:induction false} NumbersAreOneLine(s: string)
    requires ParseNat(s).Some?
    ensures '\n' !in s
  {
    if |s| > 1 {
      NumbersAreOneLine(s[..|s| - 1]);
      assert s == s[..|s| - 1] + [s[|s| - 1]];
    }
  }

  lemma {:induction false} ExpiriesAreOneLine(s: string)
    requires ParseInt(s).Some?
    ensures '\n' !in s
  {
    if s[0] == '-' || s[0] == '+' {
      NumbersAreOneLine(s[1..]);
      assert s == [s[0]] + s[1..];
    } else {
      NumbersAreOneLine(s);
    }
  }

  // Other fields the handler could read from the same message.
  ghost predicate HasOtherReading(f: Fields) {
    exists g :: g != f && IsNormal(g) && ParseInt(g.expires).Some? && Lines(g) == Lines(f)
  }

  /** The message under a signature can be read in another way if and only if the key or the run id has a
      newline between two visible characters, or the run id hides an empty line before what is a path. */
  lemma {:induction false} OtherReadingExactly(f: Fields)
    requires IsNormal(f) && ParseInt(f.expires).Some? && '\n' !in f.scope && '\n' !in f.path
    ensures HasOtherReading(f) <==> Breaks(f.key) || Breaks(f.run) || Hides(f)
    ensures HasOtherReading(f) ==> exists g :: g != f && IsNormal(g) && g.expires == f.expires && Lines(g) == Lines(f)
  {
    hide IsNormal, Lines, SafePath, SafeScope, ParseInt, IsSpace;
    if i :| 0 < i < |f.key| - 1 && BreaksAt(f.key, i) {
      MovedKeepsLines(f, i);
      assert MovedInKey(f, i).expires == f.expires;
    } else if i :| 0 < i < |f.run| - 1 && BreaksAt(f.run, i) {
      MovedKeepsLines(f, i);
      assert MovedInRun(f, i).expires == f.expires;
    } else if i :| 0 < i < |f.run| - 2 && GapAt(f.run, i) && SafePath(Rest(f, i)) == Rest(f, i) {
      UnscopedKeepsLines(f, i);
      assert Unscoped(f, i).expires == f.expires;
    } else if g :| g != f && IsNormal(g) && ParseInt(g.expires).Some? && Lines(g) == Lines(f) {
      ExpiriesAreOneLine(f.expires);
      ExpiriesAreOneLine(g.expires);
      OneReading(f, g);
    }
  }

  // Every granted link with this signature carries these fields.
  ghost predicate OpensOnly(mac: Mac, secret: string, signature: Option<seq<nat>>, f: Fields) {
    forall other, later :: SignatureOf(other) == signature && Check(mac, secret, other, later).Granted? ==> FieldsOf(other) == f
  }

  /** Exactly when: a link minted for a scope and path without newlines, or without any scope, opens no other
      fields if and only if neither its key nor its run id has a newline between two visible characters, and
      its run id hides no unscoped path. */
  lemma {:induction false} SignatureOpensOnlyExactly(mac: Mac, secret: string, sessionKey: string, runId: string, scope: string, path: string, now: int)
    requires Mint(mac, secret, sessionKey, runId, scope, path, now).Some? && 0 < now + TTL_SECONDS <= MAX_INT64
    requires var f := MintedFields(sessionKey, runId, scope, path, now);
      NoCollision(mac, secret, f) && mac(secret, Lines(f)) != [] && '\n' !in f.scope && '\n' !in f.path
    ensures var f := MintedFields(sessionKey, runId, scope, path, now);
      OpensOnly(mac, secret, SignatureOf(Mint(mac, secret, sessionKey, runId, scope, path, now).value), f)
      <==> !Breaks(f.key) && !Breaks(f.run) && !Hides(f)
  {
    var f := MintedFields(sessionKey, runId, scope, path, now);
    var signature := SignatureOf(Mint(mac, secret, sessionKey, runId, scope, path, now).value);
    MintedIsSigned(mac, secret, sessionKey, runId, scope, path, now);
    OtherReadingExactly(f);
    hide Mint, MintedFields, SignatureOf, Lines, ParseInt, Check, FieldsOf, Breaks, Hides, IsNormal;
    if HasOtherReading(f) {
      var g :| g != f && IsNormal(g) && g.expires == f.expires && Lines(g) == Lines(f);
      OpensAnother(mac, secret, f, g, now);
    } else {
      forall other, later | SignatureOf(other) == signature && Check(mac, secret, other, later).Granted?
        ensures FieldsOf(other) == f
      {
        GrantedIsSigned(mac, secret, other, later);
        GrantedHasExpiry(mac, secret, other, later);
        assert Lines(FieldsOf(other)) == Lines(f);
      }
    }
  }

  lemma {:induction false} GrantedHasExpiry(mac: Mac, secret: string, link: Link, now: int)
    requires Check(mac, secret, link, now).Granted?
    ensures ParseInt(FieldsOf(link).expires).Some?
  {
    hide Trim, SafePath, SafeScope, ValidSignature, ParseInt;
  }

  lemma {:induction false} AreSolid(f: Fields)
    requires IsNormal(f) && f.scope != ""
    ensures AllSolid(f)
  {
  }

  lemma {:induction false} OneLineDoesNotBreak(s: string)
    requires '\n' !in s
    ensures !Breaks(s)
  {
  }

  lemma {:induction false} OpensAnother(mac: Mac, secret: string, f: Fields, g: Fields, now: int)
    requires IsNormal(g) && Lines(g) == Lines(f) && g != f && secret != "" && mac(secret, Lines(f)) != []
    requires g.expires == f.expires && ParseInt(f.expires) == Some(now + TTL_SECONDS) && 0 < now + TTL_SECONDS
    ensures !OpensOnly(mac, secret, Some(mac(secret, Lines(f))), f)
  {
    hide SignatureOf, Lines, ParseInt, Check, FieldsOf, IsNormal, HexEncode;
    SignedIsGranted(mac, secret, g, now);
    var other := Link(g.key, g.key, g.run, g.scope, g.path, g.expires, HexEncode(mac(secret, Lines(g))));
    assert SignatureOf(other) == Some(mac(secret, Lines(f))) && Check(mac, secret, other, now).Granted?;
  }

  /** Key "a, newline, b" with run "c", and key "a" with run "b, newline, c": the same message, so each opens
      what was minted for the other, whatever the MAC. */
  lemma {:induction false} TwoReadings(scope: string, path: string, expires: string)
    ensures Message("a\nb", "c", scope, path, expires) == Message("a", "b\nc", scope, path, expires)
  {
    SolidStays("a\nb");
    SolidStays("b\nc");
    SolidStays("a");
    SolidStays("c");
    hide Trim, SafeScope, SafePath;
    var s, p, e := SafeScope(scope), SafePath(path), Trim(expires);
    JoinFive("a\nb", "c", s, p, e);
    JoinFive("a", "b\nc", s, p, e);
    var rest := s + "\n" + (p + "\n" + e);
    assert "a\nb" == "a" + "\n" + "b" && "b\nc" == "b" + "\n" + "c";
    Regroup("a", "b", "c", rest);
  }

  // ---- a run id that hides an unscoped path ----

  function HiddenFields(expires: string): Fields {
    Fields("k", "r\n\nq", "tasks/a/b", "p", expires)
  }

  function RevealedFields(expires: string): Fields {
    Fields("k", "r", "", "q\ntasks/a/b\np", expires)
  }

  lemma {:induction false} SplitSegment(a: string, rest: string)
    requires '/' !in a
    ensures Split(a, '/') == [a]
    ensures Split(a + "/" + rest, '/') == [a] + Split(rest, '/')
  {
    var whole := a + "/" + rest;
    assert whole[|a|] == '/' && forall i :: 0 <= i < |a| ==> whole[i] == a[i];
    var k := IndexOf(whole, '/');
    assert k == |a|;
    assert whole[..k] == a && whole[k + 1..] == rest;
    assert IndexOf(a, '/') == |a|;
  }

  lemma {:induction false} ThreeSegments(a: string, b: string, c: string)
    requires '/' !in a && '/' !in b && '/' !in c
    ensures Split(a + "/" + (b + "/" + c), '/') == [a, b, c]
  {
    SplitSegment(a, b + "/" + c);
    SplitSegment(b, c);
    SplitSegment(c, "");
    hide Split;
    assert [a] + ([b] + [c]) == [a, b, c];
  }

  lemma {:induction false} PlainPathIsSafe(path: string)
    requires IsSolid(path) && '\0' !in path && '\\' !in path && AllProper(Split(path, '/'))
    ensures SafePath(path) == path
  {
    SolidStays(path);
    assert Slashed(path) == path by { NoBackslash(path); }
    AcceptedExactly(path);
  }

  lemma {:induction false} NoBackslash(path: string)
    requires IsSolid(path) && '\\' !in path
    ensures Slashed(path) == path
  {
    SolidStays(path);
  }

  lemma {:induction false} ThreeSegmentsAreSafe(a: string, b: string, c: string)
    requires IsProper(a) && IsProper(b) && IsProper(c) && IsSolid(a) && IsSolid(c)
    requires forall ch | ch in a || ch in b || ch in c :: ch != '/' && ch != '\\' && ch != '\0'
    ensures var path := a + "/" + (b + "/" + c);
      SafePath(path) == path && (a == "tasks" ==> SafeScope(path) == path)
  {
    var path := a + "/" + (b + "/" + c);
    ThreeSegments(a, b, c);
    assert '\0' !in path && '\\' !in path && IsSolid(path) by { hide IsSpace; }
    assert [a, b, c][0] == a && [a, b, c][1] == b && [a, b, c][2] == c;
    hide Split, IsSpace;
    assert AllProper([a, b, c]) by { hide IsProper; }
    PlainPathIsSafe(path);
    hide SafePath;
  }

  lemma {:induction false} HiddenPathsAreSafe()
    ensures SafePath("p") == "p" && SafePath("q\ntasks/a/b\np") == "q\ntasks/a/b\np"
    ensures SafeScope("tasks/a/b") == "tasks/a/b"
  {
    hide Split, SafePath, SafeScope;
    SplitSegment("p", "");
    PlainPathIsSafe("p");
    ThreeSegmentsAreSafe("tasks", "a", "b");
    ThreeSegmentsAreSafe("q\ntasks", "a", "b\np");
    assert "tasks" + "/" + ("a" + "/" + "b") == "tasks/a/b";
    assert "q\ntasks" + "/" + ("a" + "/" + "b\np") == "q\ntasks/a/b\np";
  }

  /** Key "k", run "r, empty line, q", scope "tasks/a/b" and path "p": no line break between visible
      characters, yet the message is also that of run "r" without a scope, so the signature opens another
      run's path. */
  lemma {:induction false} HiddenPathIsOpened(mac: Mac, secret: string, expires: string, now: int)
    requires IsSolid(expires) && ParseInt(expires).Some? && 0 < ParseInt(expires).value && now <= ParseInt(expires).value
    requires secret != "" && mac(secret, Lines(HiddenFields(expires))) != []
    ensures var f, g := HiddenFields(expires), RevealedFields(expires);
      && IsNormal(f) && !Breaks(f.key) && !Breaks(f.run) && Hides(f)
      && var link := Link(g.key, g.key, g.run, g.scope, g.path, g.expires, HexEncode(mac(secret, Lines(f))));
         Check(mac, secret, link, now) == Granted("k", "r", "", "q\ntasks/a/b\np")
  {
    var f, g := HiddenFields(expires), RevealedFields(expires);
    HiddenPathsAreSafe();
    EmptyScope();
    hide SafePath, SafeScope, ParseInt, HexEncode, Check;
    NewlineIsSpace();
    assert GapAt(f.run, 1);
    assert Rest(f, 1) == g.path by {
      assert f.run[3..] == "q";
      assert "q" + "\n" + ("tasks/a/b" + "\n" + "p") == "q\ntasks/a/b\np";
    }
    assert f.run[..1] == "r";
    assert Unscoped(f, 1) == g;
    UnscopedKeepsLines(f, 1);
    SignedIsGranted(mac, secret, g, now);
  }
}
