/**
 `getAllPlatformAddresses`: the platform-address filter applied to the
 `platforms` field of a detail record before it is stored.
 */
module Platforms {
  import opened Opt
  import opened Dict
  import opened Json

  /** `address && typeof address === 'string'`: a non-empty string. */
  predicate ValidAddress(v: JsonValue) {
    v.Str? && v.s != ""
  }

  /** What `validPlatforms` holds after the loop has visited `es` in order. */
  function Kept(es: Entries<JsonValue>): Entries<string>
  {
    if es == [] then []
    else
      var prev := Kept(es[..|es| - 1]);
      var e := es[|es| - 1];
      if ValidAddress(e.1) then Put(prev, e.0, e.1.s) else prev
  }

  /** Every kept address is a non-empty string. */
  lemma {:induction false} KeptNonEmpty(es: Entries<JsonValue>)
    ensures forall e :: e in Kept(es) ==> e.1 != ""
  {
    if es != [] {
      var prev := Kept(es[..|es| - 1]);
      var e := es[|es| - 1];
      KeptNonEmpty(es[..|es| - 1]);
      if ValidAddress(e.1) {
        PutMeaning(prev, e.0, e.1.s);
      }
    }
  }

  /** The result for any argument: `{}` for a falsy value or one whose `typeof` is
      not 'object' (arrays and objects are objects), else the valid entries. */
  function ValidPlatforms(platforms: JsonValue): Entries<string> {
    if !Truthy(platforms) || !(platforms.Obj? || platforms.Arr?) then []
    else Kept(ObjectEntries(platforms))
  }

  /** The value the filter keeps for key `k` of the input: the address when the
      input has a non-empty string there. */
  function AddressAt(es: Entries<JsonValue>, k: string): Option<string> {
    match Lookup(es, k)
    case Some(v) => if ValidAddress(v) then Some(v.s) else None
    case None => None
  }

  method GetAllPlatformAddresses(platforms: JsonValue) returns (valid: Entries<string>)
    ensures valid == ValidPlatforms(platforms)
  {
    if !Truthy(platforms) || !(platforms.Obj? || platforms.Arr?) {
      return [];
    }
    var entries := ObjectEntries(platforms);
    valid := [];
    for j := 0 to |entries|
      invariant valid == Kept(entries[..j])
    {
      var (platform, address) := entries[j];
      assert entries[..j + 1][..j] == entries[..j];
      if ValidAddress(address) {
        valid := Put(valid, platform, address.s);
      }
    }
    assert entries[..|entries|] == entries;
  }

  /** On entries with distinct keys, the filtered object has exactly the keys whose
      input value is a non-empty string, each with that value unchanged, and no key
      twice. */
  lemma {:induction false} KeptLookup(es: Entries<JsonValue>, k: string)
    requires DistinctKeys(es)
    ensures Lookup(Kept(es), k) == AddressAt(es, k)
    ensures DistinctKeys(Kept(es))
  {
    if es != [] {
      var init, e := es[..|es| - 1], es[|es| - 1];
      assert es == init + [e];
      assert DistinctKeys(init);
      KeptLookup(init, k);
      KeptLookup(init, e.0);
      LookupSnoc(init, e.0, e.1, k);
      assert e.0 !in Keys(init) by {
        forall i | 0 <= i < |init| ensures Keys(init)[i] != e.0 {
          assert es[i].0 != es[|es| - 1].0;
        }
      }
      LookupSnoc(init, e.0, e.1, e.0);
      LookupFinds(init, e.0);
      LookupFinds(init, k);
      if ValidAddress(e.1) {
        PutLookup(Kept(init), e.0, e.1.s, k);
        PutKeepsDistinct(Kept(init), e.0, e.1.s);
      }
    }
  }

  /** The filter on any object with distinct keys, and on any array. */
  lemma PlatformsOfObject(platforms: JsonValue, k: string)
    requires platforms.Arr? || (platforms.Obj? && DistinctKeys(platforms.fields))
    ensures Lookup(ValidPlatforms(platforms), k) == AddressAt(ObjectEntries(platforms), k)
    ensures DistinctKeys(ValidPlatforms(platforms))
    ensures forall e :: e in ValidPlatforms(platforms) ==> e.1 != ""
  {
    ObjectEntriesDistinct(platforms);
    KeptLookup(ObjectEntries(platforms), k);
    KeptNonEmpty(ObjectEntries(platforms));
  }

  /** A falsy value, a string, a number or a boolean gives `{}`. */
  lemma PlatformsOfNonObject(platforms: JsonValue)
    requires !Truthy(platforms) || platforms.Str? || platforms.Num? || platforms.Bool?
    ensures ValidPlatforms(platforms) == []
  {
  }
}
