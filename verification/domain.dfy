/**
 * Base-domain extraction and domain-ownership verification
 * (`GetAsciiBaseDomain` and `VerifyDomainNameOwnership`).
 *
 * Domain-name validation and IDNA-to-ASCII conversion are foreign libraries:
 * they enter as the two uninterpreted functions of a `Codec`. The HTTP fetch of
 * the well-known document and its JSON decoding enter as a `fetch` function
 * from URL to the registered key list (or an error).
 */
module Domain {
  import opened Shared
  import opened Strings

  datatype DomainError =
    | InvalidDomainName       // rejected by the domain-name validator
    | AsciiConversionFailed   // the IDNA conversion failed: "domain is invalid"
    | MissingBaseDomain       // "value must have base domain and tld"
    | FetchFailed             // the well-known document could not be fetched or decoded

  datatype Codec = Codec(validate: string -> bool, toAscii: string -> Option<string>)

  /** The host whose base domain is overridden by the full name. */
  const AppHost: string := "app.getcode.com"

  const WellKnownPath: string := "/.well-known/code-payments.json"

  /** `s` is `whole` with zero or more leading labels (and their dots) removed. */
  ghost predicate IsLabelSuffix(s: string, whole: string)
  {
    exists k | 0 <= k <= |whole| :: whole == whole[..k] + s && (k == 0 || whole[k - 1] == '.')
  }

  /** Joining at any interior cut point puts one separator between the two joins. */
  lemma {:induction false} JoinAt(parts: seq<string>, k: nat, sep: char)
    requires 1 <= k < |parts|
    ensures Join(parts, sep) == Join(parts[..k], sep) + [sep] + Join(parts[k..], sep)
    decreases k
  {
    if k > 1 {
      JoinAt(parts[1..], k - 1, sep);
      assert parts[1..][..k - 1] == parts[..k][1..];
      assert parts[1..][k - 1..] == parts[k..];
    }
  }

  /** The last two parts, joined by a dot, are a label suffix of the whole. */
  lemma LastTwoIsLabelSuffix(ascii: string)
    requires |Split(ascii, '.')| >= 2
    ensures IsLabelSuffix(Join(Split(ascii, '.')[|Split(ascii, '.')| - 2..], '.'), ascii)
  {
    var parts := Split(ascii, '.');
    var n := |parts|;
    var tail := Join(parts[n - 2..], '.');
    if n == 2 {
      assert parts[n - 2..] == parts;
      assert ascii == ascii[..0] + tail;
    } else {
      JoinAt(parts, n - 2, '.');
      var head := Join(parts[..n - 2], '.') + ['.'];
      var k := |head|;
      assert ascii == head + tail;
      assert ascii[..k] == head;
      assert ascii[k - 1] == '.';
    }
  }

  /**
   * The ASCII base domain of `domain`: its last two dot-separated labels after
   * validation and IDNA conversion.
   */
  function GetAsciiBaseDomain(domain: string, codec: Codec): (r: Result<string, DomainError>)
    ensures !codec.validate(domain) ==> r == Err(InvalidDomainName)
    ensures codec.validate(domain) && codec.toAscii(domain).None? ==> r == Err(AsciiConversionFailed)
    ensures codec.validate(domain) && codec.toAscii(domain).Some? ==>
              (r.Ok? <==> '.' in codec.toAscii(domain).value)
    ensures r.Err? && codec.validate(domain) && codec.toAscii(domain).Some? ==> r == Err(MissingBaseDomain)
    ensures r.Ok? ==> codec.toAscii(domain).Some? && IsLabelSuffix(r.value, codec.toAscii(domain).value)
    ensures r.Ok? ==> |Split(r.value, '.')| == 2
  {
    if !codec.validate(domain) then Err(InvalidDomainName)
    else match codec.toAscii(domain)
      case None => Err(AsciiConversionFailed)
      case Some(ascii) =>
        var parts := Split(ascii, '.');
        SplitCountsSeparator(ascii, '.');
        if |parts| < 2 then Err(MissingBaseDomain)
        else
          var last2 := parts[|parts| - 2..];
          SplitJoin(last2, '.');
          LastTwoIsLabelSuffix(ascii);
          assert Join(last2, '.') == parts[|parts| - 2] + "." + parts[|parts| - 1];
          Ok(parts[|parts| - 2] + "." + parts[|parts| - 1])
  }

  /** An ASCII name of exactly two labels is its own base domain. */
  lemma TwoLabelNameIsItsOwnBaseDomain(domain: string, codec: Codec)
    requires codec.validate(domain) && codec.toAscii(domain) == Some(domain)
    requires |Split(domain, '.')| == 2
    ensures GetAsciiBaseDomain(domain, codec) == Ok(domain)
  {
    var parts := Split(domain, '.');
    assert parts[|parts| - 2..] == parts;
    assert Join(parts, '.') == parts[0] + "." + parts[1];
  }

  /** Base-domain extraction is idempotent on names the codec leaves unchanged. */
  lemma BaseDomainIdempotent(domain: string, codec: Codec)
    requires GetAsciiBaseDomain(domain, codec).Ok?
    requires var b := GetAsciiBaseDomain(domain, codec).value;
             codec.validate(b) && codec.toAscii(b) == Some(b)
    ensures var b := GetAsciiBaseDomain(domain, codec).value;
            GetAsciiBaseDomain(b, codec) == Ok(b)
  {
    TwoLabelNameIsItsOwnBaseDomain(GetAsciiBaseDomain(domain, codec).value, codec);
  }

  /** The host whose well-known document is consulted for `domain`. */
  function WellKnownHost(domain: string, codec: Codec): (r: Result<string, DomainError>)
    ensures GetAsciiBaseDomain(domain, codec).Err? ==> r == GetAsciiBaseDomain(domain, codec)
    ensures r.Ok? && domain == AppHost ==> r.value == AppHost
    ensures r.Ok? && domain != AppHost ==> r == GetAsciiBaseDomain(domain, codec)
  {
    var base :- GetAsciiBaseDomain(domain, codec);
    if domain == AppHost then Ok(AppHost) else Ok(base)
  }

  function WellKnownUrl(host: string): string
  {
    "https://" + host + WellKnownPath
  }

  /** Scans the registered key list for the owner's key. */
  method IsRegistered(ownerKey: Account, registered: seq<Account>) returns (found: bool)
    ensures found <==> ownerKey in registered
  {
    var i := 0;
    while i < |registered|
      invariant 0 <= i <= |registered|
      invariant ownerKey !in registered[..i]
    {
      if registered[i] == ownerKey {
        return true;
      }
      i := i + 1;
    }
    assert registered[..i] == registered;
    return false;
  }

  /**
   * Whether `ownerKey` owns `domain`: true iff the key is listed in the
   * well-known document served by the domain's (possibly overridden) host.
   */
  method VerifyDomainNameOwnership(
    ownerKey: Account, domain: string, codec: Codec,
    fetch: string -> Result<seq<Account>, DomainError>)
    returns (r: Result<bool, DomainError>)
    ensures WellKnownHost(domain, codec).Err? ==> r == Err(WellKnownHost(domain, codec).error)
    ensures WellKnownHost(domain, codec).Ok? ==>
              var keys := fetch(WellKnownUrl(WellKnownHost(domain, codec).value));
              (keys.Err? ==> r == Err(keys.error)) &&
              (keys.Ok? ==> r == Ok(ownerKey in keys.value))
  {
    var host := WellKnownHost(domain, codec);
    if host.Err? {
      return Err(host.error);
    }
    var keys := fetch(WellKnownUrl(host.value));
    if keys.Err? {
      return Err(keys.error);
    }
    var found := IsRegistered(ownerKey, keys.value);
    return Ok(found);
  }
}
