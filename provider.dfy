/**
 * The analytics provider tag (`returnProvider`): the page's hostname is
 * tested against a fixed, ordered list of brand domains by substring
 * match, and the tag of the first domain found is returned; when none is
 * found, or when there is no hostname, the sentinel "PULSE-INIT" is
 * returned.
 */
module Provider {
  import opened Wrappers
  import opened JsStrings

  /** One entry of the brand list: the domain searched for and the tag it yields. */
  datatype Brand = Brand(domain: string, tag: string)

  const Sentinel: string := "PULSE-INIT"

  /** The brand list in the order the hostname is tested. */
  const Brands: seq<Brand> := [
    Brand("adressa.no", "adressano"),
    Brand("aftenposten.no", "aftenposten"),
    Brand("bt.no", "bt"),
    Brand("e24.no", "e24"),
    Brand("fvn.no", "faedrelandsvennen"),
    Brand("aftenbladet.no", "stavangeraftenblad"),
    Brand("vg.no", "vg"),
    Brand("tek.no", "tekno"),
    Brand("finn.no", "finn"),
    Brand("godt.no", "godt"),
    Brand("minmote.no", "minmote")
  ]

  /** `returnProvider` as the component writes it: a truthiness test on the hostname, then an if/else-if chain. */
  function ReturnProvider(hostname: string): (tag: string)
    ensures hostname == "" ==> tag == Sentinel
  {
    if hostname != "" then
      if Includes(hostname, "adressa.no") then "adressano"
      else if Includes(hostname, "aftenposten.no") then "aftenposten"
      else if Includes(hostname, "bt.no") then "bt"
      else if Includes(hostname, "e24.no") then "e24"
      else if Includes(hostname, "fvn.no") then "faedrelandsvennen"
      else if Includes(hostname, "aftenbladet.no") then "stavangeraftenblad"
      else if Includes(hostname, "vg.no") then "vg"
      else if Includes(hostname, "tek.no") then "tekno"
      else if Includes(hostname, "finn.no") then "finn"
      else if Includes(hostname, "godt.no") then "godt"
      else if Includes(hostname, "minmote.no") then "minmote"
      else "PULSE-INIT"
    else
      "PULSE-INIT"
  }

  /** The index of the first brand at or after `k` whose domain occurs in `hostname`. */
  function FirstMatchFrom(brands: seq<Brand>, hostname: string, k: nat): (r: Option<nat>)
    requires k <= |brands|
    ensures r.Some? ==> k <= r.value < |brands| && Contains(hostname, brands[r.value].domain)
    ensures r.Some? ==> forall j :: k <= j < r.value ==> !Contains(hostname, brands[j].domain)
    ensures r.None? ==> forall j :: k <= j < |brands| ==> !Contains(hostname, brands[j].domain)
    decreases |brands| - k
  {
    if k == |brands| then None
    else if Includes(hostname, brands[k].domain) then Some(k)
    else FirstMatchFrom(brands, hostname, k + 1)
  }

  /** The reference definition: the tag of the first matching brand of the list, else the sentinel. */
  function ProviderFor(hostname: string): (tag: string)
    ensures tag == Sentinel <==> forall j :: 0 <= j < |Brands| ==> !Contains(hostname, Brands[j].domain)
    ensures tag != Sentinel ==>
      exists i :: 0 <= i < |Brands| && tag == Brands[i].tag && Contains(hostname, Brands[i].domain)
        && forall j :: 0 <= j < i ==> !Contains(hostname, Brands[j].domain)
  {
    TagsAreNotSentinel();
    match FirstMatchFrom(Brands, hostname, 0)
    case None => Sentinel
    case Some(i) => Brands[i].tag
  }

  /** No brand tag collides with the sentinel. */
  lemma TagsAreNotSentinel()
    ensures forall i :: 0 <= i < |Brands| ==> Brands[i].tag != Sentinel
  {
  }

  /** The if/else chain is exactly the first-match search over the ordered brand list. */
  lemma ReturnProviderIsFirstMatch(hostname: string)
    ensures ReturnProvider(hostname) == ProviderFor(hostname)
  {
  }

  /** `returnProvider` yields the tag of brand `i` exactly when its domain occurs and no earlier one does. */
  lemma ReturnProviderSelects(hostname: string, i: nat)
    requires i < |Brands|
    ensures ReturnProvider(hostname) == Brands[i].tag <==>
      Contains(hostname, Brands[i].domain) && forall j :: 0 <= j < i ==> !Contains(hostname, Brands[j].domain)
  {
    ReturnProviderIsFirstMatch(hostname);
  }
}
