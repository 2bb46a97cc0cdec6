/**
  The address the map geocodes (`MapViewComponent.getFullAddress`): the
  location's address, trimmed, with ", Chile" appended unless it already
  ends in "chile" in any letter case.
*/
module MapView {
  import opened Wrappers
  import opened Model
  import opened Strings

  const CountrySuffix := ", Chile"

  /** The first test of the function: ends with "chile", ignoring case. */
  predicate EndsWithChile(s: string) {
    EndsWith(ToLower(s), "chile")
  }

  /** Appending ", Chile" always passes the first test. */
  lemma SuffixEndsWithChile(address: string)
    ensures EndsWithChile(address + CountrySuffix)
  {
    ToLowerConcat(address, CountrySuffix);
    var low := ToLower(address + CountrySuffix);
    assert ToLower(CountrySuffix) == ", chile";
    assert low[|low| - 5..] == ToLower(CountrySuffix)[2..];
  }

  function FullAddress(location: Option<Location>): (r: string)
    ensures location.None? ==> r == ""
    ensures location.Some? && EndsWithChile(Trim(location.value.address)) ==> r == Trim(location.value.address)
    ensures location.Some? && !EndsWithChile(Trim(location.value.address)) ==> r == Trim(location.value.address) + CountrySuffix
    ensures location.Some? ==> EndsWithChile(r)
  {
    if location.None? then ""
    else
      var address := Trim(location.value.address);
      var lower := ToLower(address);
      CommaBranchIsDead(lower);
      // The two early returns of the source, joined: either one keeps the address.
      if EndsWith(lower, "chile") || EndsWith(lower, ", chile") then address
      else
        SuffixEndsWithChile(address);
        address + CountrySuffix
  }

  /** The second test can never decide anything: ending in ", chile" already means ending in "chile". */
  lemma CommaBranchIsDead(s: string)
    ensures EndsWith(s, ", chile") ==> EndsWith(s, "chile")
  {
    if EndsWith(s, ", chile") {
      assert s[|s| - 5..] == s[|s| - 7..][2..];
    }
  }

  /**
    The code tests for "chile" alone, so an address that merely ends in a
    street or town named Chile gets no country suffix, although the
    source's own comment says the result always ends with ", Chile".
  */
  lemma StreetNamedChileGetsNoSuffix(loc: Location)
    requires loc.address == "Av. Chile"
    ensures FullAddress(Some(loc)) == "Av. Chile"
    ensures !EndsWith(FullAddress(Some(loc)), CountrySuffix)
  {
    TrimFixed(loc.address);
    var low := ToLower(loc.address);
    assert low[|low| - 5..] == "chile";
    var r := FullAddress(Some(loc));
    assert r[|r| - 7..] != CountrySuffix by {
      assert r[|r| - 7] == '.';
    }
  }

  /** Feeding the result back as the address gives the result again. */
  lemma FullAddressIdempotent(loc: Location)
    ensures FullAddress(Some(loc.(address := FullAddress(Some(loc))))) == FullAddress(Some(loc))
  {
    var address := Trim(loc.address);
    var r := FullAddress(Some(loc));
    if r == address {
      TrimIdempotent(loc.address);
    } else {
      assert r == address + CountrySuffix;
      assert r[|r| - 1] == 'e';
      if |address| > 0 {
        assert r[0] == address[0];
      } else {
        assert r[0] == ',';
      }
      TrimFixed(r);
    }
  }
}
