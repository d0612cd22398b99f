/** Choosing an adapter: the provider-name rule and per-name instance cache
    of the two-provider module (`_get_provider`), and the single lazily
    built instance of the Kakao-only module (`_get_api_instance`). */
module Dispatch {
  import opened Python

  datatype Vendor = Kakao | Naver

  /** An adapter object. Its credentials and headers are not modelled;
      object identity and the vendor are what the callers rely on. */
  class GeocodingApi {
    const vendor: Vendor

    constructor (vendor: Vendor)
      ensures this.vendor == vendor
    {
      this.vendor := vendor;
    }
  }

  /** `(provider or "kakao").strip().lower()` */
  function NormalizeProvider(provider: Option<string>): string {
    var name := if provider.None? || provider.value == "" then "kakao" else provider.value;
    Lower(Strip(name))
  }

  /** The vendor a normalised name selects, if any. */
  function VendorOf(name: string): (r: Option<Vendor>)
    ensures r == Some(Kakao) <==> name == "kakao"
    ensures r == Some(Naver) <==> name == "naver"
  {
    if name == "kakao" then Some(Kakao) else if name == "naver" then Some(Naver) else None
  }

  /** Lower-casing changes no whitespace character and no non-whitespace
      one into whitespace. */
  lemma LowerKeepsSpace(c: char)
    ensures IsSpace(LowerChar(c)) == IsSpace(c)
  {
  }

  /** Lower-casing a string without surrounding whitespace gives one. */
  lemma {:induction false} LowerStripped(s: string)
    requires IsStripped(s)
    ensures IsStripped(Lower(s))
  {
    if s != [] {
      LowerKeepsSpace(s[0]);
      LowerKeepsSpace(s[|s| - 1]);
    }
  }

  /** Lower-casing twice is lower-casing once. */
  lemma LowerIdempotent(s: string)
    ensures Lower(Lower(s)) == Lower(s)
  {
    assert forall i :: 0 <= i < |s| ==> LowerChar(LowerChar(s[i])) == LowerChar(s[i]);
  }

  /** No name given, or "", selects Kakao. */
  lemma DefaultProvider(provider: Option<string>)
    requires provider.None? || provider == Some("")
    ensures NormalizeProvider(provider) == "kakao"
  {
    StripStripped("kakao");
    assert Lower("kakao") == "kakao";
  }

  /** A normalised name has no surrounding whitespace and no upper-case
      ASCII letter, and normalising it again changes nothing; a name that
      is all whitespace normalises to "" and is then rejected. */
  lemma {:induction false} NormalizeProviderNormal(provider: Option<string>)
    ensures IsStripped(NormalizeProvider(provider))
    ensures forall i :: 0 <= i < |NormalizeProvider(provider)| ==> !('A' <= NormalizeProvider(provider)[i] <= 'Z')
    ensures NormalizeProvider(provider) != "" ==> NormalizeProvider(Some(NormalizeProvider(provider))) == NormalizeProvider(provider)
  {
    var name := if provider.None? || provider.value == "" then "kakao" else provider.value;
    var stripped := Strip(name);
    assert NormalizeProvider(provider) == Lower(stripped);
    LowerStripped(stripped);
    LowerHasNoUpper(stripped);
    NormalizeLowered(stripped);
  }

  /** Normalising a lower-cased stripped name gives it back. */
  lemma NormalizeLowered(stripped: string)
    requires IsStripped(stripped)
    ensures Lower(stripped) != "" ==> NormalizeProvider(Some(Lower(stripped))) == Lower(stripped)
  {
    var p := Lower(stripped);
    LowerStripped(stripped);
    StripStripped(p);
    LowerIdempotent(stripped);
  }

  /** Lower-casing leaves no upper-case ASCII letter. */
  lemma LowerHasNoUpper(s: string)
    ensures forall i :: 0 <= i < |Lower(s)| ==> !('A' <= Lower(s)[i] <= 'Z')
  {
  }

  /** The per-name instance cache `_provider_instances` with `_get_provider`. */
  class ProviderRegistry {
    var instances: map<string, GeocodingApi>

    /** Only the two vendor names are ever cached, each under its own vendor. */
    ghost predicate Valid()
      reads this
    {
      forall name :: name in instances ==> VendorOf(name).Some? && instances[name].vendor == VendorOf(name).value
    }

    /** The module starts with an empty cache. */
    constructor ()
      ensures Valid()
      ensures instances == map[]
    {
      instances := map[];
    }

    /** `_get_provider(provider)`. `credentialsFound` is whether the
        adapter constructor finds its API keys; when it does not, the
        constructor raises and nothing is cached. */
    method GetProvider(provider: Option<string>, credentialsFound: bool) returns (r: Result<GeocodingApi>)
      requires Valid()
      modifies this
      ensures Valid()
      // whatever is handed back stays cached under the normalised name
      ensures r.Success? ==> NormalizeProvider(provider) in instances && instances[NormalizeProvider(provider)] == r.value
      // an unknown name raises and leaves the cache alone
      ensures VendorOf(NormalizeProvider(provider)).None? ==>
                r == Failure(UnsupportedProvider(NormalizeProvider(provider))) && instances == old(instances)
      // a cached instance is handed back as it is
      ensures NormalizeProvider(provider) in old(instances) ==>
                r == Success(old(instances)[NormalizeProvider(provider)]) && instances == old(instances)
      // otherwise one new instance is built and cached, or construction fails
      ensures VendorOf(NormalizeProvider(provider)).Some? && NormalizeProvider(provider) !in old(instances) ==>
                if credentialsFound then
                  && r.Success? && fresh(r.value) && r.value.vendor == VendorOf(NormalizeProvider(provider)).value
                  && instances == old(instances)[NormalizeProvider(provider) := r.value]
                else
                  r == Failure(MissingCredentials) && instances == old(instances)
    {
      var p := NormalizeProvider(provider);
      var vendor := VendorOf(p);
      if vendor.None? {
        return Failure(UnsupportedProvider(p));
      }
      if p in instances {
        return Success(instances[p]);
      }
      if !credentialsFound {
        return Failure(MissingCredentials);
      }
      var inst := new GeocodingApi(vendor.value);
      instances := instances[p := inst];
      return Success(inst);
    }

    /** Asking twice for the same vendor, however the name is spelled,
        gives the very same object, and the second call changes nothing. */
    method GetProviderTwice(first: Option<string>, second: Option<string>, credentialsFound: bool)
      returns (a: Result<GeocodingApi>, b: Result<GeocodingApi>)
      requires Valid()
      requires NormalizeProvider(first) == NormalizeProvider(second)
      modifies this
      ensures Valid()
      ensures a.Success? ==> b == a
      ensures a.Success? ==> forall name :: name in instances <==> name in old(instances) || name == NormalizeProvider(first)
    {
      ghost var p := NormalizeProvider(first);
      a := GetProvider(first, credentialsFound);
      ghost var between := instances;
      assert a.Success? ==> p in between && between[p] == a.value;
      b := GetProvider(second, credentialsFound);
    }
  }

  /** The module-level `_api_instance` with `_get_api_instance` of the
      Kakao-only module. */
  class ApiSlot {
    var instance: Option<GeocodingApi>

    ghost predicate Valid()
      reads this
    {
      instance.Some? ==> instance.value.vendor == Kakao
    }

    /** `_api_instance = None` */
    constructor ()
      ensures Valid()
      ensures instance == None
    {
      instance := None;
    }

    /** `_get_api_instance()`: the instance is built on the first call that
        finds credentials and handed back unchanged on every later call. */
    method GetApiInstance(credentialsFound: bool) returns (r: Result<GeocodingApi>)
      requires Valid()
      modifies this
      ensures Valid()
      ensures old(instance).Some? ==> r == Success(old(instance).value) && instance == old(instance)
      ensures old(instance).None? && credentialsFound ==>
                r.Success? && fresh(r.value) && r.value.vendor == Kakao && instance == Some(r.value)
      ensures old(instance).None? && !credentialsFound ==> r == Failure(MissingCredentials) && instance == None
    {
      if instance.None? {
        if !credentialsFound {
          return Failure(MissingCredentials);
        }
        var inst := new GeocodingApi(Kakao);
        instance := Some(inst);
      }
      return Success(instance.value);
    }
  }
}
