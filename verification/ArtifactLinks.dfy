/** Artifact download links: the path sanitiser, minting a link, and the check of the download handler.

    The MAC is any function from secret and message to 32 bytes. Query encoding and decoding is the
    identity on the fields. path.Clean and strconv are modelled by their documented rules. */
module ArtifactLinks {
  import opened Text

  // ---- path.Clean ----

  function Resolve(stack: seq<string>, segments: seq<string>, rooted: bool): seq<string>
    decreases |segments|
  {
    if segments == [] then stack
    else
      var s, rest := segments[0], segments[1..];
      if s == "" || s == "." then Resolve(stack, rest, rooted)
      else if s == ".." then
        if stack != [] && stack[|stack| - 1] != ".." then Resolve(stack[..|stack| - 1], rest, rooted)
        else if rooted then Resolve(stack, rest, rooted)
        else Resolve(stack + [".."], rest, rooted)
      else Resolve(stack + [s], rest, rooted)
  }

  function Clean(path: string): string {
    if path == "" then "."
    else
      var rooted := path[0] == '/';
      var body := Join(Resolve([], Split(path, '/'), rooted), '/');
      if rooted then "/" + body else if body == "" then "." else body
  }

  // ---- the sanitisers ----

  predicate IsProper(segment: string) {
    segment != "" && segment != "." && segment != ".."
  }

  predicate AllProper(segments: seq<string>) {
    forall k :: 0 <= k < |segments| ==> IsProper(segments[k])
  }

  function Slashed(raw: string): string {
    ReplaceChar(Trim(raw), '\\', '/')
  }

  function SafePath(raw: string): string {
    var trimmed := Trim(raw);
    if trimmed == "" || '\0' in trimmed then ""
    else
      var slashPath := ReplaceChar(trimmed, '\\', '/');
      if slashPath[0] == '/' then ""
      else if !AllProper(Split(slashPath, '/')) then ""
      else
        var cleaned := Clean(slashPath);
        if cleaned == "." || (|cleaned| >= 3 && cleaned[..3] == "../") || cleaned == ".." then "" else cleaned
  }

  function SafeScope(raw: string): string {
    var scope := SafePath(raw);
    if scope == "" then ""
    else
      var parts := Split(scope, '/');
      if |parts| != 3 || parts[0] != "tasks" || parts[1] == "" || parts[2] == "" then "" else scope
  }

  lemma {:induction false} ResolveProper(stack: seq<string>, segments: seq<string>, rooted: bool)
    requires AllProper(segments)
    ensures Resolve(stack, segments, rooted) == stack + segments
    decreases |segments|
  {
    if segments != [] {
      assert IsProper(segments[0]);
      ResolveProper(stack + [segments[0]], segments[1..], rooted);
    }
  }

  lemma {:induction false} CleanFixesProper(path: string)
    requires path != "" && path[0] != '/' && AllProper(Split(path, '/'))
    ensures Clean(path) == path
  {
    ResolveProper([], Split(path, '/'), false);
    JoinSplit(path, '/');
    assert [] + Split(path, '/') == Split(path, '/');
  }

  /** The documented rules of path cleaning: empty and dot segments go, a segment goes with the dot-dot after
      it, dot-dot at the root goes, and at the start of a relative path stays; nothing left is a dot. */
  lemma {:induction false} CleaningRules(stack: seq<string>, segment: string, rest: seq<string>, rooted: bool)
    requires IsProper(segment)
    ensures Resolve(stack, [""] + rest, rooted) == Resolve(stack, rest, rooted) == Resolve(stack, ["."] + rest, rooted)
    ensures Resolve(stack, [segment, ".."] + rest, rooted) == Resolve(stack, rest, rooted)
    ensures Resolve([], [".."] + rest, true) == Resolve([], rest, true)
    ensures Resolve([], [".."] + rest, false) == Resolve([".."], rest, false) && Resolve([".."], [".."] + rest, false) == Resolve(["..", ".."], rest, false)
    ensures Clean("") == "." && Clean(".") == "." && Clean("/") == "/" && Clean("..") == ".."
  {
    assert ([""] + rest)[1..] == rest && (["."] + rest)[1..] == rest && ([".."] + rest)[1..] == rest;
    assert ([segment, ".."] + rest)[1..] == [".."] + rest;
    assert (stack + [segment])[..|stack|] == stack;
    assert [] + [".."] == [".."] && [".."] + [".."] == ["..", ".."];
    ShortPaths();
  }

  lemma {:induction false} ShortPaths()
    ensures Clean("") == "." && Clean(".") == "." && Clean("/") == "/" && Clean("..") == ".."
  {
    assert Split(".", '/') == ["."] && Split("..", '/') == [".."];
    assert Split("/", '/') == ["", ""] by { assert "/"[1..] == ""; }
    assert ["", ""][1..] == [""] && [""][1..] == [] && ["."][1..] == [] && [".."][1..] == [];
    assert [] + [".."] == [".."];
    assert Resolve([], ["", ""], true) == [] && Resolve([], ["."], false) == [] && Resolve([], [".."], false) == [".."];
    assert Join([".."], '/') == "..";
    assert Join([], '/') == "";
  }

  // What a proper path does not begin with.
  lemma {:induction false} ProperStart(path: string)
    requires path != "" && AllProper(Split(path, '/'))
    ensures path[0] != '/' && path != "." && path != ".." && !(|path| >= 3 && path[..3] == "../")
  {
    var k := IndexOf(path, '/');
    assert Split(path, '/')[0] == path[..k];
    assert IsProper(path[..k]);
    if |path| >= 3 {
      var start := path[..3];
      assert start[0] == path[0] && start[1] == path[1] && start[2] == path[2];
      assert k == 2 ==> path[..k] == [path[0], path[1]];
    }
  }

  /** A path is accepted exactly when, trimmed and with slashes, it is non-empty, free of NUL and made of
      proper segments only; and then that is the result. The sanitiser's other guards reject nothing more. */
  lemma {:induction false} AcceptedExactly(raw: string)
    ensures SafePath(raw) != "" <==> Trim(raw) != "" && '\0' !in Trim(raw) && AllProper(Split(Slashed(raw), '/'))
    ensures SafePath(raw) != "" ==> SafePath(raw) == Slashed(raw)
  {
    var path := Slashed(raw);
    if Trim(raw) != "" && AllProper(Split(path, '/')) {
      ProperStart(path);
      CleanFixesProper(path);
    }
  }

  lemma {:induction false} SlashedStays(raw: string)
    requires '\0' !in Trim(raw)
    ensures IsTrimmed(Slashed(raw)) && '\0' !in Slashed(raw)
    ensures Trim(Slashed(raw)) == Slashed(raw) && Slashed(Slashed(raw)) == Slashed(raw)
  {
    TrimTrims(raw);
    var path := Slashed(raw);
    assert forall i :: 0 <= i < |path| ==> path[i] == (if Trim(raw)[i] == '\\' then '/' else Trim(raw)[i]);
    TrimmedStays(path);
    assert ReplaceChar(path, '\\', '/') == path;
  }

  /** Sanitising again changes nothing, and an accepted path is a fixed point of cleaning whose segments
      are all proper. */
  lemma {:induction false} SafePathIsStable(raw: string)
    ensures SafePath(SafePath(raw)) == SafePath(raw)
    ensures SafePath(raw) != "" ==> Clean(SafePath(raw)) == SafePath(raw) && AllProper(Split(SafePath(raw), '/'))
  {
    AcceptedExactly(raw);
    if SafePath(raw) == "" {
      assert Trim("") == "";
    } else {
      SlashedStays(raw);
      AcceptedExactly(Slashed(raw));
      ProperStart(Slashed(raw));
      CleanFixesProper(Slashed(raw));
    }
  }

  lemma {:induction false} SafeScopeIsStable(raw: string)
    ensures SafeScope(SafeScope(raw)) == SafeScope(raw)
    ensures SafeScope(raw) != "" ==> SafeScope(raw) == SafePath(raw)
  {
    SafePathIsStable(raw);
    if SafeScope(raw) == "" {
      assert Trim("") == "";
    }
  }

  // A safe path has no white space at its ends, so reading it back from a query keeps it.
  lemma {:induction false} SafeScopeIsTrimmed(raw: string)
    ensures Trim(SafeScope(raw)) == SafeScope(raw)
  {
    AcceptedExactly(raw);
    SafeScopeIsStable(raw);
    if SafeScope(raw) != "" {
      SlashedStays(raw);
    } else {
      assert Trim("") == "";
    }
  }

  // ---- hexadecimal ----

  type Byte = b: nat | b < 256

  function HexDigit(d: nat): char
    requires d < 16
  {
    if d < 10 then ('0' as int + d) as char else ('a' as int + (d - 10)) as char
  }

  function HexValue(c: char): Option<nat> {
    if '0' <= c <= '9' then Some(c as int - '0' as int)
    else if 'a' <= c <= 'f' then Some(c as int - 'a' as int + 10)
    else if 'A' <= c <= 'F' then Some(c as int - 'A' as int + 10)
    else None
  }

  function HexEncode(bytes: seq<Byte>): string {
    if bytes == [] then "" else [HexDigit(bytes[0] / 16), HexDigit(bytes[0] % 16)] + HexEncode(bytes[1..])
  }

  function HexDecode(s: string): Option<seq<nat>> {
    if s == "" then Some([])
    else if |s| == 1 then None
    else
      var high, low, rest := HexValue(s[0]), HexValue(s[1]), HexDecode(s[2..]);
      if high.None? || low.None? || rest.None? then None else Some([high.value * 16 + low.value] + rest.value)
  }

  lemma {:induction false} HexDigitValue(d: nat)
    requires d < 16
    ensures HexValue(HexDigit(d)) == Some(d) && !IsSpace(HexDigit(d))
  {
  }

  // Signatures may be written in capitals.
  lemma {:induction false} HexCapitals(k: nat)
    requires k < 6
    ensures HexValue(('a' as int + k) as char) == Some(10 + k) && HexValue(('A' as int + k) as char) == Some(10 + k)
  {
  }

  lemma {:induction false} HexRoundTrip(bytes: seq<Byte>)
    ensures HexDecode(HexEncode(bytes)) == Some(bytes)
    ensures forall i :: 0 <= i < |HexEncode(bytes)| ==> !IsSpace(HexEncode(bytes)[i])
    ensures |HexEncode(bytes)| == 2 * |bytes|
  {
    if bytes != [] {
      var s := HexEncode(bytes);
      HexRoundTrip(bytes[1..]);
      HexDigitValue(bytes[0] / 16);
      HexDigitValue(bytes[0] % 16);
      assert s[2..] == HexEncode(bytes[1..]);
      assert HexDecode(s) == Some([bytes[0]] + bytes[1..]);
      assert [bytes[0]] + bytes[1..] == bytes;
      assert forall i :: 2 <= i < |s| ==> s[i] == HexEncode(bytes[1..])[i - 2];
    }
  }

  // ---- signing, minting, checking ----

  // HMAC-SHA256 of a message under a secret.
  type Mac = (string, string) -> seq<Byte>

  function Message(sessionKey: string, runId: string, scope: string, path: string, expires: string): string {
    Join([Trim(sessionKey), Trim(runId), SafeScope(scope), SafePath(path), Trim(expires)], '\n')
  }

  function Sign(mac: Mac, secret: string, sessionKey: string, runId: string, scope: string, path: string, expires: string): string {
    if secret == "" then "" else HexEncode(mac(secret, Message(sessionKey, runId, scope, path, expires)))
  }

  predicate ValidSignature(mac: Mac, secret: string, sessionKey: string, runId: string, scope: string, path: string, expires: string, signature: string) {
    var expected := Sign(mac, secret, sessionKey, runId, scope, path, expires);
    && expected != "" && signature != ""
    && HexDecode(expected).Some? && HexDecode(signature).Some?
    && HexDecode(expected).value == HexDecode(signature).value
  }

  // The query parameters of a link.
  datatype Link = Link(openclawSessionKey: string, sessionKey: string, runId: string, scope: string, path: string, expires: string, sig: string)

  const TTL_SECONDS: int := 24 * 60 * 60

  function Mint(mac: Mac, secret: string, sessionKey: string, runId: string, scope: string, path: string, now: int): Option<Link> {
    var key, run := Trim(sessionKey), Trim(runId);
    var safeScope, safePath := SafeScope(scope), SafePath(path);
    if Trim(scope) != "" && safeScope == "" then None
    else if key == "" || run == "" || safePath == "" || secret == "" then None
    else
      var expires := FormatInt(now + TTL_SECONDS);
      Some(Link(key, key, run, safeScope, safePath, expires, Sign(mac, secret, key, run, safeScope, safePath, expires)))
  }

  datatype Verdict = MissingParameters | InvalidScope | InvalidExpiry | Expired | InvalidSignature
                   | Granted(sessionKey: string, runId: string, scope: string, path: string)

  function Check(mac: Mac, secret: string, link: Link, now: int): Verdict {
    var sessionKey := if Trim(link.openclawSessionKey) != "" then Trim(link.openclawSessionKey) else Trim(link.sessionKey);
    var runId, rawScope := Trim(link.runId), Trim(link.scope);
    var scope, path := SafeScope(rawScope), SafePath(link.path);
    var expires, signature := Trim(link.expires), Trim(link.sig);
    if sessionKey == "" || runId == "" || path == "" || expires == "" || signature == "" then MissingParameters
    else if rawScope != "" && scope == "" then InvalidScope
    else
      var until := ParseInt(expires);
      if until.None? || until.value <= 0 then InvalidExpiry
      else if now > until.value then Expired
      else if !ValidSignature(mac, secret, sessionKey, runId, scope, path, expires, signature) then InvalidSignature
      else Granted(sessionKey, runId, scope, path)
  }

  // The signing message is built from the normal forms of its fields.
  lemma {:induction false} MintedFieldsAreNormal(sessionKey: string, runId: string, scope: string, path: string)
    ensures Trim(Trim(sessionKey)) == Trim(sessionKey) && Trim(Trim(runId)) == Trim(runId)
    ensures SafeScope(Trim(SafeScope(scope))) == SafeScope(scope) && Trim(SafeScope(scope)) == SafeScope(scope)
    ensures SafePath(SafePath(path)) == SafePath(path)
  {
    TrimTwice(sessionKey);
    TrimTwice(runId);
    SafeScopeIsTrimmed(scope);
    SafeScopeIsStable(scope);
    SafePathIsStable(path);
  }

  /** A minted link, read back with the same secret, is granted for exactly its own fields until it
      expires, and refused as expired afterwards. */
  lemma {:induction false} MintedLinkPasses(mac: Mac, secret: string, sessionKey: string, runId: string, scope: string, path: string, now: int, later: int)
    requires Mint(mac, secret, sessionKey, runId, scope, path, now).Some?
    requires 0 < now + TTL_SECONDS <= MAX_INT64
    requires forall s, m :: |mac(s, m)| == 32
    ensures var link := Mint(mac, secret, sessionKey, runId, scope, path, now).value;
      Check(mac, secret, link, later)
      == if later <= now + TTL_SECONDS then Granted(Trim(sessionKey), Trim(runId), SafeScope(scope), SafePath(path)) else Expired
  {
    hide SafePath, SafeScope, Trim, Join, Split;
    var link := Mint(mac, secret, sessionKey, runId, scope, path, now).value;
    var expires := FormatInt(now + TTL_SECONDS);
    MintedFieldsAreNormal(sessionKey, runId, scope, path);
    ParseFormatInt(now + TTL_SECONDS);
    var bytes := mac(secret, Message(link.sessionKey, link.runId, link.scope, link.path, expires));
    HexRoundTrip(bytes);
    NoSpaceIsTrimmed(link.sig);
  }

  /** A link is minted exactly for a key, a run id, a safe path and a secret, with no scope or a safe one; it
      carries their normal forms and an expiry a day ahead. */
  lemma {:induction false} MintedExactly(mac: Mac, secret: string, sessionKey: string, runId: string, scope: string, path: string, now: int)
    ensures var minted := Mint(mac, secret, sessionKey, runId, scope, path, now);
      && (minted.Some? <==> Trim(sessionKey) != "" && Trim(runId) != "" && SafePath(path) != "" && secret != ""
                            && (Trim(scope) == "" || SafeScope(scope) != ""))
      && (minted.Some? ==>
            var link := minted.value;
            && link.openclawSessionKey == Trim(sessionKey) && link.runId == Trim(runId)
            && link.scope == SafeScope(scope) && link.path == SafePath(path) && link.expires == FormatInt(now + 24 * 60 * 60))
  {
    hide Trim, SafePath, SafeScope, FormatInt, HexEncode, Message;
  }

  /** A link is granted exactly when it names a key (the newer parameter first), a run id, a safe path, no scope
      or a safe one, an expiry that is positive and not past, and the right signature; and then for these. */
  lemma {:induction false} GrantedExactly(mac: Mac, secret: string, link: Link, now: int)
    ensures var key := if Trim(link.openclawSessionKey) != "" then Trim(link.openclawSessionKey) else Trim(link.sessionKey);
      var run, scope, path := Trim(link.runId), SafeScope(Trim(link.scope)), SafePath(link.path);
      var until := ParseInt(Trim(link.expires));
      var complete := key != "" && run != "" && path != "" && Trim(link.expires) != "" && Trim(link.sig) != "" && (Trim(link.scope) == "" || scope != "");
      var current := until.Some? && 0 < until.value && now <= until.value;
      Check(mac, secret, link, now) == Granted(key, run, scope, path)
      <==> complete && current && ValidSignature(mac, secret, key, run, scope, path, Trim(link.expires), Trim(link.sig))
  {
    hide Trim, SafePath, SafeScope, ParseInt, ValidSignature;
  }

  /** Scopes are the safe paths of three segments below tasks. */
  lemma {:induction false} ScopesExactly(raw: string)
    ensures SafeScope(raw) != "" <==> SafePath(raw) != "" && |Split(SafePath(raw), '/')| == 3 && Split(SafePath(raw), '/')[0] == "tasks"
    ensures SafeScope(raw) != "" ==> SafeScope(raw) == SafePath(raw)
  {
    SafePathIsStable(raw);
    hide Split, Clean;
    if SafePath(raw) != "" && |Split(SafePath(raw), '/')| == 3 {
      var parts := Split(SafePath(raw), '/');
      assert IsProper(parts[1]) && IsProper(parts[2]);
    }
  }
}
