/** The provider ID codec of pkg/ionos/apis/transcoder/provider_id.go.

    A provider ID is the URI `ionos:///<datacenterID>/<serverID>`: scheme
    `ionos`, an empty authority and a two-segment path whose segments are UUIDs.
    Decoding goes through Go's url.Parse and uuid.Parse; both are modelled here
    as far as the decoder depends on them. */
module Transcoder {
  import opened Common

  /** The fields of Go's url.URL that url.Parse fills in and the decoder can observe. */
  datatype Url = Url(scheme: string, opaqueData: string, host: Option<string>, path: string)

  datatype ServerData = ServerData(datacenterId: string, id: string)

  /** One constructor per error return of DecodeServerDataFromProviderID, plus the
      run-time panic of `Path[1:]` on an empty path. */
  datatype DecodeError =
    | MalformedProviderId     // url.Parse failed
    | UnsupportedScheme       // scheme is not "ionos"
    | EmptyPathPanic          // Path[1:] on an empty path panics in Go
    | InvalidUrl              // the path does not hold two segments
    | InvalidDatacenterId     // first segment is not a UUID
    | InvalidServerId         // second segment is not a UUID

  const Scheme: string := "ionos"

  // ---------------------------------------------------------------- url.Parse

  predicate IsLetter(c: char) { 'a' <= c <= 'z' || 'A' <= c <= 'Z' }

  /** Characters a scheme may hold after its first letter. */
  predicate IsSchemeTail(c: char) { IsDigit(c) || c == '+' || c == '-' || c == '.' }

  /** Go rejects any ASCII control character in a URL. */
  predicate IsCtl(c: char) { c < ' ' || c as int == 0x7F }

  /** Length of the longest prefix of s[i..] (counting from 0) that getScheme scans over. */
  function SchemeScan(s: string, i: nat): (k: nat)
    requires i <= |s|
    ensures i <= k <= |s|
    ensures forall j :: i <= j < k ==> IsLetter(s[j]) || (j > 0 && IsSchemeTail(s[j]))
    ensures k < |s| ==> !(IsLetter(s[k]) || (k > 0 && IsSchemeTail(s[k])))
    decreases |s| - i
  {
    if i == |s| then i
    else if IsLetter(s[i]) || (i > 0 && IsSchemeTail(s[i])) then SchemeScan(s, i + 1)
    else i
  }

  /** getScheme: `Err` for "missing protocol scheme" (a leading ':'), else the scheme
      (possibly empty) and the rest of the URL. */
  function GetScheme(s: string): Result<(string, string), DecodeError>
  {
    var k := SchemeScan(s, 0);
    if k < |s| && s[k] == ':' then
      if k == 0 then Err(MalformedProviderId) else Ok((s[..k], s[k + 1..]))
    else Ok(("", s))
  }

  predicate HasCtl(u: string) { exists i :: 0 <= i < |u| && IsCtl(u[i]) }

  /** url.Parse, without percent-decoding and without validating the host: the fragment
      is cut off first, then the scheme is recognised and lower-cased, then the query is
      cut off. */
  function ParseUrl(raw: string): Result<Url, DecodeError>
  {
    var u := Before(raw, '#');
    if HasCtl(u) then Err(MalformedProviderId)
    else match GetScheme(u)
      case Err(e) => Err(e)
      case Ok(split) => ParseRest(AsciiLower(split.0), Before(split.1, '?'))
  }

  /** The rest of url.Parse once scheme, fragment and query are gone: an opaque URL,
      the colon-in-first-segment error, an authority, or a bare path. */
  function ParseRest(scheme: string, rest: string): Result<Url, DecodeError>
  {
    if (|rest| == 0 || rest[0] != '/') && scheme != "" then Ok(Url(scheme, rest, None, ""))
    else if (|rest| == 0 || rest[0] != '/') && ':' in Before(rest, '/') then Err(MalformedProviderId)
    else if (scheme != "" || !(|rest| >= 3 && rest[..3] == "///")) && |rest| >= 2 && rest[..2] == "//" then
      var authority := rest[2..];
      var i := IndexOf(authority, '/');
      Ok(Url(scheme, "", Some(authority[..i]), authority[i..]))
    else Ok(Url(scheme, "", None, rest))
  }

  // ---------------------------------------------------------------- uuid.Parse

  predicate IsHex(c: char) { '0' <= c <= '9' || 'a' <= c <= 'f' || 'A' <= c <= 'F' }

  /** The 36-character form xxxxxxxx-xxxx-xxxx-xxxx-xxxxxxxxxxxx (RFC 4122 section 3). */
  predicate IsCanonicalUuid(s: string)
  {
    |s| == 36 &&
    forall i :: 0 <= i < 36 ==> if i in {8, 13, 18, 23} then s[i] == '-' else IsHex(s[i])
  }

  /** uuid.Parse also accepts `urn:uuid:...` (prefix in any case), 32 bare hex digits,
      and any 38 bytes whose middle 36 are canonical: it drops the first byte and
      never looks at the last, so `{...}` passes and so does `/.../`. Go counts bytes,
      so both ends must be ASCII characters for the length to be 38. */
  predicate IsUuid(s: string)
  {
    IsCanonicalUuid(s)
    || (|s| == 38 && s[0] as int < 0x80 && s[37] as int < 0x80 && IsCanonicalUuid(s[1..37]))
    || (|s| == 45 && AsciiLower(s[..9]) == "urn:uuid:" && IsCanonicalUuid(s[9..]))
    || (|s| == 32 && forall i :: 0 <= i < 32 ==> IsHex(s[i]))
  }

  // ---------------------------------------------------------------- the codec

  /** EncodeProviderID: scheme and empty authority, then the two IDs as the path's
      segments, each found again at a fixed position. */
  function EncodeProviderID(datacenterId: string, serverId: string): (id: string)
    ensures |id| == 10 + |datacenterId| + |serverId|
    ensures id[..9] == "ionos:///" && id[9..9 + |datacenterId|] == datacenterId
    ensures id[9 + |datacenterId|] == '/' && id[10 + |datacenterId|..] == serverId
  {
    "ionos:///" + datacenterId + "/" + serverId
  }

  /** The checks DecodeServerDataFromProviderID makes once url.Parse has succeeded:
      on success the two components are the path's segments exactly as written,
      split at the first '/', and both are UUIDs. */
  function DecodeUrl(url: Url): (r: Result<ServerData, DecodeError>)
    ensures r.Ok? ==>
      && url.scheme == Scheme
      && |url.path| > 0
      && url.path[1..] == r.value.datacenterId + "/" + r.value.id
      && '/' !in r.value.datacenterId
      && IsUuid(r.value.datacenterId) && IsUuid(r.value.id)
    ensures r == Err(UnsupportedScheme) <==> url.scheme != Scheme
    ensures r != Err(MalformedProviderId)
  {
    if url.scheme != Scheme then Err(UnsupportedScheme)
    else if url.path == "" then Err(EmptyPathPanic)
    else
      var p := url.path[1..];
      var i := IndexOf(p, '/');
      if i == |p| then Err(InvalidUrl)
      else if !IsUuid(p[..i]) then Err(InvalidDatacenterId)
      else if !IsUuid(p[i + 1..]) then Err(InvalidServerId)
      else
        assert p == p[..i] + "/" + p[i + 1..];
        Ok(ServerData(p[..i], p[i + 1..]))
  }

  /** DecodeServerDataFromProviderID: a url.Parse failure is reported as malformed,
      everything else is decided by DecodeUrl on the parsed URL. */
  function DecodeServerDataFromProviderID(providerId: string): (r: Result<ServerData, DecodeError>)
    ensures r == Err(MalformedProviderId) <==> ParseUrl(providerId).Err?
    ensures ParseUrl(providerId).Ok? ==> r == DecodeUrl(ParseUrl(providerId).value)
  {
    match ParseUrl(providerId)
    case Err(e) => Err(e)
    case Ok(url) => DecodeUrl(url)
  }

  function DecodeDatacenterIDFromProviderID(providerId: string): (r: Result<string, DecodeError>)
    ensures r.Ok? <==> DecodeServerDataFromProviderID(providerId).Ok?
    ensures r.Ok? ==> r.value == DecodeServerDataFromProviderID(providerId).value.datacenterId
    ensures r.Err? ==> r.error == DecodeServerDataFromProviderID(providerId).error
  {
    match DecodeServerDataFromProviderID(providerId)
    case Err(e) => Err(e)
    case Ok(data) => Ok(data.datacenterId)
  }

  function DecodeServerIDFromProviderID(providerId: string): (r: Result<string, DecodeError>)
    ensures r.Ok? <==> DecodeServerDataFromProviderID(providerId).Ok?
    ensures r.Ok? ==> r.value == DecodeServerDataFromProviderID(providerId).value.id
    ensures r.Err? ==> r.error == DecodeServerDataFromProviderID(providerId).error
  {
    match DecodeServerDataFromProviderID(providerId)
    case Err(e) => Err(e)
    case Ok(data) => Ok(data.id)
  }

  // ---------------------------------------------------------------- laws

  /** A canonical UUID holds only hex digits and dashes. */
  lemma CanonicalIsPlain(s: string)
    requires IsCanonicalUuid(s)
    ensures IsPlain(s)
  {
    forall i | 0 <= i < |s| ensures s[i] != '/' && s[i] != '#' && s[i] != '?' && !IsCtl(s[i]) {
      assert i in {8, 13, 18, 23} || IsHex(s[i]);
    }
  }

  /** Every UUID form is free of the characters url.Parse treats specially in a path,
      except the 38-character one, whose two unchecked ends may be any of them. */
  lemma UuidIsPlain(s: string)
    requires IsUuid(s) && |s| != 38
    ensures IsPlain(s)
  {
    if |s| == 45 && AsciiLower(s[..9]) == "urn:uuid:" && IsCanonicalUuid(s[9..]) {
      LowerKeeps(s[..9]);
      forall i | 0 <= i < |s| ensures s[i] != '/' && s[i] != '#' && s[i] != '?' && !IsCtl(s[i]) {
        if i >= 9 { assert s[i] == s[9..][i - 9]; }
      }
    } else if IsCanonicalUuid(s) {
      CanonicalIsPlain(s);
    }
  }

  /** Lower-casing maps neither a special character nor a non-special one onto '/', '#', '?'
      or a control character. */
  lemma {:induction false} LowerKeeps(s: string)
    ensures forall i :: 0 <= i < |s| ==>
      (AsciiLower(s)[i] == '/' <==> s[i] == '/') && (AsciiLower(s)[i] == '#' <==> s[i] == '#')
      && (AsciiLower(s)[i] == '?' <==> s[i] == '?') && (IsCtl(AsciiLower(s)[i]) <==> IsCtl(s[i]))
  {
    if s != [] {
      LowerKeeps(s[1..]);
      forall i | 0 <= i < |s|
        ensures (AsciiLower(s)[i] == '/' <==> s[i] == '/') && (AsciiLower(s)[i] == '#' <==> s[i] == '#')
          && (AsciiLower(s)[i] == '?' <==> s[i] == '?') && (IsCtl(AsciiLower(s)[i]) <==> IsCtl(s[i]))
      {
        if i > 0 { assert AsciiLower(s)[i] == AsciiLower(s[1..])[i - 1]; }
      }
    }
  }

  lemma LowerScheme()
    ensures AsciiLower(Scheme) == Scheme
  {
    assert AsciiLower("s") == "s";
    assert AsciiLower("os") == "os";
    assert AsciiLower("nos") == "nos";
    assert AsciiLower("onos") == "onos";
  }

  lemma PathJoin(datacenterId: string, serverId: string)
    ensures "/" + (datacenterId + "/" + serverId) == "/" + datacenterId + "/" + serverId
  {
  }

  /** getScheme stops at the first ':' after a run of letters. */
  lemma LetterScheme(scheme: string, rest: string)
    requires |scheme| > 0 && forall i :: 0 <= i < |scheme| ==> IsLetter(scheme[i])
    ensures GetScheme(scheme + ":" + rest) == Ok((scheme, rest))
  {
    var s := scheme + ":" + rest;
    ScanLetters(s, |scheme|, |scheme|);
    assert s[..|scheme|] == scheme && s[|scheme| + 1..] == rest;
  }

  lemma {:induction false} ScanLetters(s: string, n: nat, i: nat)
    requires i <= n < |s| && s[n] == ':'
    requires forall j :: 0 <= j < n ==> IsLetter(s[j])
    ensures SchemeScan(s, i) == n
    decreases n - i
  {
    if i < n { ScanLetters(s, n, i + 1); }
  }

  /** The scheme of an encoded provider ID is recognised as "ionos". */
  lemma EncodedScheme(rest: string)
    ensures GetScheme("ionos:" + rest) == Ok(("ionos", rest))
  {
    var s := "ionos:" + rest;
    assert SchemeScan(s, 5) == 5;
    assert SchemeScan(s, 0) == 5 by {
      assert SchemeScan(s, 4) == SchemeScan(s, 5);
      assert SchemeScan(s, 3) == SchemeScan(s, 4);
      assert SchemeScan(s, 2) == SchemeScan(s, 3);
      assert SchemeScan(s, 1) == SchemeScan(s, 2);
    }
    assert s[..5] == "ionos" && s[6..] == rest;
  }

  /** A string url.Parse passes through untouched when it sits inside a path segment. */
  predicate IsPlain(s: string)
  {
    '/' !in s && '#' !in s && '?' !in s && !HasCtl(s)
  }

  /** An encoded provider ID holds no '#', no control character and, after its
      scheme, no '?'. */
  lemma EncodedIsPlain(datacenterId: string, serverId: string)
    requires IsPlain(datacenterId) && IsPlain(serverId)
    ensures var raw := EncodeProviderID(datacenterId, serverId);
      && '#' !in raw
      && (forall i :: 0 <= i < |raw| ==> !IsCtl(raw[i]))
      && '?' !in raw[6..]
  {
    var raw := EncodeProviderID(datacenterId, serverId);
    forall i | 0 <= i < |raw| ensures raw[i] != '#' && !IsCtl(raw[i]) && (i >= 6 ==> raw[i] != '?') {
      if 9 <= i < 9 + |datacenterId| { assert raw[i] == datacenterId[i - 9]; }
      else if i >= 9 + |datacenterId| + 1 { assert raw[i] == serverId[i - 10 - |datacenterId|]; }
    }
    forall i | 0 <= i < |raw[6..]| ensures raw[6..][i] != '?' { assert raw[6..][i] == raw[i + 6]; }
  }

  /** url.Parse reads an encoded provider ID as scheme "ionos", an empty host and the
      path "/<datacenterID>/<serverID>". */
  lemma ParseEncoded(datacenterId: string, serverId: string)
    requires IsPlain(datacenterId) && IsPlain(serverId)
    ensures ParseUrl(EncodeProviderID(datacenterId, serverId))
            == Ok(Url("ionos", "", Some(""), "/" + datacenterId + "/" + serverId))
  {
    var tail := datacenterId + "/" + serverId;
    var rest := "///" + tail;
    var raw := EncodeProviderID(datacenterId, serverId);
    EncodedIsPlain(datacenterId, serverId);
    assert raw == "ionos:" + rest;
    assert raw[6..] == rest;
    assert !HasCtl(raw);
    assert Before(rest, '?') == rest;
    EncodedScheme(rest);
    ParseSchemed(raw, "ionos", rest);
    LowerScheme();
    EmptyAuthority(tail);
    PathJoin(datacenterId, serverId);
  }

  lemma EmptyAuthority(tail: string)
    ensures ParseRest("ionos", "///" + tail) == Ok(Url("ionos", "", Some(""), "/" + tail))
  {
    var rest := "///" + tail;
    var authority := rest[2..];
    assert authority == "/" + tail;
    assert IndexOf(authority, '/') == 0;
    assert authority[..0] == "" && authority[0..] == authority;
  }

  /** Slashes followed by a string without '#', '?' or a control character. */
  lemma PlainTail(prefix: string, tail: string)
    requires '#' !in tail && '?' !in tail && !HasCtl(tail)
    requires forall i :: 0 <= i < |prefix| ==> prefix[i] == '/'
    ensures var raw := "ionos:" + prefix + tail;
      '#' !in raw && !HasCtl(raw) && Before(prefix + tail, '?') == prefix + tail
  {
    var raw := "ionos:" + prefix + tail;
    forall i | 0 <= i < |raw| ensures raw[i] != '#' && !IsCtl(raw[i]) {
      if i >= 6 + |prefix| { assert raw[i] == tail[i - 6 - |prefix|]; }
    }
    var r := prefix + tail;
    forall i | 0 <= i < |r| ensures r[i] != '?' {
      if i >= |prefix| { assert r[i] == tail[i - |prefix|]; }
    }
  }

  /** url.Parse reads `ionos:///<segment>` as the path "/<segment>". */
  lemma ParsePath(segment: string)
    requires '#' !in segment && '?' !in segment && !HasCtl(segment)
    ensures ParseUrl("ionos:///" + segment) == Ok(Url("ionos", "", Some(""), "/" + segment))
  {
    var raw := "ionos:///" + segment;
    assert raw == "ionos:" + "///" + segment;
    PlainTail("///", segment);
    EncodedScheme("///" + segment);
    assert "ionos:" + "///" + segment == "ionos:" + ("///" + segment);
    ParseSchemed(raw, "ionos", "///" + segment);
    LowerScheme();
    EmptyAuthority(segment);
  }

  /** The path of an encoded provider ID splits at the '/' after the datacenter ID. */
  lemma SplitAtSlash(datacenterId: string, serverId: string)
    requires '/' !in datacenterId
    ensures var p := datacenterId + "/" + serverId;
      IndexOf(p, '/') == |datacenterId| && p[..|datacenterId|] == datacenterId
      && p[|datacenterId| + 1..] == serverId
  {
    var p := datacenterId + "/" + serverId;
    assert p[|datacenterId|] == '/';
    forall j | 0 <= j < |datacenterId| ensures p[j] != '/' { assert p[j] == datacenterId[j]; }
  }

  /** The checks after parsing, on the path of an encoded provider ID. */
  lemma DecodeEncodedPath(datacenterId: string, serverId: string)
    requires '/' !in datacenterId
    ensures DecodeUrl(Url(Scheme, "", Some(""), "/" + datacenterId + "/" + serverId))
            == if !IsUuid(datacenterId) then Err(InvalidDatacenterId)
               else if !IsUuid(serverId) then Err(InvalidServerId)
               else Ok(ServerData(datacenterId, serverId))
  {
    var url := Url(Scheme, "", Some(""), "/" + datacenterId + "/" + serverId);
    assert url.path[1..] == datacenterId + "/" + serverId;
    SplitAtSlash(datacenterId, serverId);
  }

  /** Decoding an encoded provider ID gives back both components unchanged, when they
      are UUIDs free of '/', '?', '#' and control characters. */
  lemma RoundTrip(datacenterId: string, serverId: string)
    requires IsUuid(datacenterId) && IsUuid(serverId)
    requires IsPlain(datacenterId) && IsPlain(serverId)
    ensures DecodeServerDataFromProviderID(EncodeProviderID(datacenterId, serverId))
            == Ok(ServerData(datacenterId, serverId))
  {
    ParseEncoded(datacenterId, serverId);
    DecodeEncodedPath(datacenterId, serverId);
  }

  /** A 38-character UUID whose unchecked last character is '/' does not survive the
      round trip: the decoder splits the path at that '/' and sees a 37-character first
      segment. */
  lemma SlashEndedUuidBreaksRoundTrip(canonical: string, serverId: string)
    requires IsCanonicalUuid(canonical) && IsPlain(serverId)
    ensures IsUuid("{" + canonical + "/")
    ensures DecodeServerDataFromProviderID(EncodeProviderID("{" + canonical + "/", serverId)) == Err(InvalidDatacenterId)
  {
    var d := "{" + canonical;
    var tail := "/" + serverId;
    var segment := d + "/" + tail;
    Regroup(d, serverId);
    SlashedSegment(canonical, serverId);
    ParsePath(segment);
    NoUuidOfLength37(d);
    DecodeEncodedPath(d, tail);
    EndsUnchecked(canonical);
  }

  lemma Regroup(d: string, serverId: string)
    ensures EncodeProviderID(d + "/", serverId) == "ionos:///" + (d + "/" + ("/" + serverId))
    ensures "/" + (d + "/" + ("/" + serverId)) == "/" + d + "/" + ("/" + serverId)
  {
  }

  lemma NoUuidOfLength37(s: string)
    requires |s| == 37
    ensures !IsUuid(s)
  {
  }

  /** The first and last of 38 characters are not checked. */
  lemma EndsUnchecked(canonical: string)
    requires IsCanonicalUuid(canonical)
    ensures IsUuid("{" + canonical + "/")
  {
    assert ("{" + canonical + "/")[1..37] == canonical;
  }

  /** The path segment of an encoded `{<uuid>/` is free of '#', '?' and control
      characters, and its first piece holds no '/'. */
  lemma SlashedSegment(canonical: string, serverId: string)
    requires IsCanonicalUuid(canonical) && IsPlain(serverId)
    ensures var segment := "{" + canonical + "/" + ("/" + serverId);
      '#' !in segment && '?' !in segment && !HasCtl(segment) && '/' !in "{" + canonical
  {
    CanonicalIsPlain(canonical);
    var d := "{" + canonical;
    var segment := d + "/" + ("/" + serverId);
    forall i | 0 <= i < |segment| ensures !IsCtl(segment[i]) {
      if 1 <= i < 37 { assert segment[i] == canonical[i - 1]; }
      else if i >= 39 { assert segment[i] == serverId[i - 39]; }
    }
  }

  /** Two provider IDs with UUID components free of special characters are equal only
      when both components are. */
  lemma EncodeInjective(d1: string, s1: string, d2: string, s2: string)
    requires IsUuid(d1) && IsUuid(s1) && IsUuid(d2) && IsUuid(s2)
    requires IsPlain(d1) && IsPlain(s1) && IsPlain(d2) && IsPlain(s2)
    requires EncodeProviderID(d1, s1) == EncodeProviderID(d2, s2)
    ensures d1 == d2 && s1 == s2
  {
    RoundTrip(d1, s1);
    RoundTrip(d2, s2);
  }

  /** How url.Parse reads a URL with a recognised scheme and no fragment. */
  lemma ParseSchemed(raw: string, scheme: string, rest: string)
    requires '#' !in raw && !HasCtl(raw)
    requires GetScheme(raw) == Ok((scheme, rest))
    ensures ParseUrl(raw) == ParseRest(AsciiLower(scheme), Before(rest, '?'))
  {
  }

  /** Any scheme that is not "ionos" in some letter case is refused, e.g. `invalid:///test`. */
  lemma RejectsOtherScheme(scheme: string, rest: string)
    requires |scheme| > 0 && forall i :: 0 <= i < |scheme| ==> IsLetter(scheme[i])
    requires AsciiLower(scheme) != Scheme
    requires '#' !in rest && !HasCtl(rest)
    ensures DecodeServerDataFromProviderID(scheme + ":" + rest) == Err(UnsupportedScheme)
  {
    var raw := scheme + ":" + rest;
    LetterScheme(scheme, rest);
    SchemeClean(scheme, rest);
    ParseSchemed(raw, scheme, rest);
    SchemedRest(AsciiLower(scheme), Before(rest, '?'));
  }

  lemma SchemedRest(scheme: string, rest: string)
    requires scheme != ""
    ensures ParseRest(scheme, rest).Ok? && ParseRest(scheme, rest).value.scheme == scheme
  {
  }

  lemma SchemeClean(scheme: string, rest: string)
    requires forall i :: 0 <= i < |scheme| ==> IsLetter(scheme[i])
    requires '#' !in rest && !HasCtl(rest)
    ensures '#' !in scheme + ":" + rest && !HasCtl(scheme + ":" + rest)
  {
    var raw := scheme + ":" + rest;
    forall i | 0 <= i < |raw| ensures raw[i] != '#' && !IsCtl(raw[i]) {
      if i > |scheme| { assert raw[i] == rest[i - |scheme| - 1]; }
    }
  }

  /** The empty provider ID has no scheme and is refused for it. */
  lemma RejectsEmpty()
    ensures DecodeServerDataFromProviderID("") == Err(UnsupportedScheme)
  {
    assert GetScheme("") == Ok(("", ""));
  }

  /** A path with a single segment is refused, e.g. `ionos:///test`. */
  lemma RejectsSingleSegment(segment: string)
    requires IsPlain(segment)
    ensures DecodeServerDataFromProviderID("ionos:///" + segment) == Err(InvalidUrl)
  {
    var raw := "ionos:///" + segment;
    ParsePath(segment);
    assert IndexOf(segment, '/') == |segment|;
  }

  /** A first segment that is not a UUID is refused, e.g. `ionos:///test/nan`. */
  lemma RejectsBadDatacenter(datacenterId: string, serverId: string)
    requires IsPlain(datacenterId) && IsPlain(serverId) && !IsUuid(datacenterId)
    ensures DecodeServerDataFromProviderID(EncodeProviderID(datacenterId, serverId)) == Err(InvalidDatacenterId)
  {
    ParseEncoded(datacenterId, serverId);
    DecodeEncodedPath(datacenterId, serverId);
  }

  /** A second segment that is not a UUID is refused. */
  lemma RejectsBadServer(datacenterId: string, serverId: string)
    requires IsUuid(datacenterId) && IsPlain(datacenterId) && IsPlain(serverId) && !IsUuid(serverId)
    ensures DecodeServerDataFromProviderID(EncodeProviderID(datacenterId, serverId)) == Err(InvalidServerId)
  {
    ParseEncoded(datacenterId, serverId);
    DecodeEncodedPath(datacenterId, serverId);
  }

  /** With an authority and no path, `Path[1:]` panics, e.g. `ionos://host`. */
  lemma EmptyPathPanics(host: string)
    requires IsPlain(host)
    ensures DecodeServerDataFromProviderID("ionos://" + host) == Err(EmptyPathPanic)
  {
    var raw := "ionos://" + host;
    assert raw == "ionos:" + ("//" + host);
    PlainTail("//", host);
    EncodedScheme("//" + host);
    ParseSchemed(raw, "ionos", "//" + host);
    LowerScheme();
    var rest := "//" + host;
    assert rest[2..] == host;
    assert IndexOf(host, '/') == |host|;
  }
}
