/**
  The IP filter: allow and disallow rules by address block or country, a rule match that rewrites and caches its own
  address text, and the shortcut that skips the location lookup when no rule needs one.
*/
module Geo {
  import opened Wrappers

  // A rule, or the location of an address.
  datatype Place = Place(ip: string, countryCode: string, country: string, city: string) {
    predicate Empty() {
      ip == "" && countryCode == "" && country == "" && city == ""
    }
  }

  // The library's address parsing, block membership and case folding. An address that does not parse is in no block.
  datatype Net<!Block, !Addr> = Net(parseCIDR: string -> Option<Block>, parseIP: string -> Option<Addr>,
                                  contains: (Block, Addr) -> bool, lower: string -> string)

  predicate Contains<Block, Addr>(net: Net<Block, Addr>, block: Block, addr: Option<Addr>) {
    addr.Some? && net.contains(block, addr.value)
  }

  // The text contains a slash followed by a digit.
  predicate HasMask(text: string) {
    exists i :: 0 <= i < |text| - 1 && text[i] == '/' && '0' <= text[i + 1] <= '9'
  }

  function WithMask(ip: string): string {
    if HasMask(ip) then ip else ip + "/32"
  }

  lemma MaskIsKept(ip: string)
    ensures HasMask(WithMask(ip)) && WithMask(WithMask(ip)) == WithMask(ip)
  {
    if !HasMask(ip) {
      var text := ip + "/32";
      assert text[|ip|] == '/' && text[|ip| + 1] == '3';
    }
  }

  // The rule match as a pure test: address rules look at the address alone, others at the country code.
  predicate Matches<Block, Addr>(net: Net<Block, Addr>, rule: Place, location: Place) {
    if rule.ip != "" then
      match net.parseCIDR(WithMask(rule.ip))
      case None => false
      case Some(block) => Contains(net, block, net.parseIP(location.ip))
    else rule.countryCode != "" && net.lower(location.countryCode) == net.lower(rule.countryCode)
  }

  /** A rule object: matching appends a missing mask to the address text and keeps the parsed block. */
  class Location<Block, Addr> {
    const net: Net<Block, Addr>
    const countryCode: string
    const country: string
    const city: string
    var ip: string
    var cidr: Option<Block>

    ghost predicate Valid()
      reads this
    {
      cidr.Some? ==> ip != "" && HasMask(ip) && net.parseCIDR(ip) == cidr
    }

    function Rule(): Place
      reads this
    {
      Place(ip, countryCode, country, city)
    }

    constructor (net: Net<Block, Addr>, rule: Place)
      ensures Valid() && Rule() == rule && this.net == net && cidr == None
    {
      this.net := net;
      ip, countryCode, country, city := rule.ip, rule.countryCode, rule.country, rule.city;
      cidr := None;
    }

    // The answer is the pure one, and the rewritten rule answers every later question as the original would.
    method Match(location: Place) returns (matched: bool)
      requires Valid()
      modifies this
      ensures Valid()
      ensures matched == Matches(net, old(Rule()), location)
      ensures Rule() == old(Rule()).(ip := if old(ip) == "" then "" else WithMask(old(ip)))
      ensures forall l: Place :: Matches(net, Rule(), l) == Matches(net, old(Rule()), l)
    {
      if ip != "" {
        MaskIsKept(ip);
        if cidr.None? {
          if !HasMask(ip) {
            ip := ip + "/32";
          }
          var subnet := net.parseCIDR(ip);
          if subnet.None? {
            return false;
          }
          cidr := subnet;
        }
        return Contains(net, cidr.value, net.parseIP(location.ip));
      }
      return countryCode != "" && net.lower(location.countryCode) == net.lower(countryCode);
    }
  }

  // A location source: whether its data is loaded, and what it says about an address (empty if it knows nothing).
  datatype Provider = Provider(ready: bool, lookup: string -> Place)

  predicate NeedsLookup(rule: Place) {
    rule.countryCode != "" || rule.country != "" || rule.city != ""
  }

  predicate AllEmpty(rules: seq<Place>) {
    forall i :: 0 <= i < |rules| ==> rules[i].Empty()
  }

  predicate AnyMatch<Block, Addr>(net: Net<Block, Addr>, rules: seq<Place>, location: Place) {
    exists i :: 0 <= i < |rules| && Matches(net, rules[i], location)
  }

  predicate AnyNeedsLookup(rules: seq<Place>) {
    exists i :: 0 <= i < |rules| && NeedsLookup(rules[i])
  }

  // The verdict on a location: no disallow rule matches, and an allow rule matches unless there are none to speak of.
  predicate Verdict<Block, Addr>(net: Net<Block, Addr>, allow: seq<Place>, disallow: seq<Place>, location: Place) {
    location.Empty() || (!AnyMatch(net, disallow, location) && (AnyMatch(net, allow, location) || AllEmpty(allow)))
  }

  function Lookup(providers: seq<Provider>, ip: string): Place {
    if providers == [] then Place(ip, "UNKNOWN", "", "")
    else if providers[0].ready && !providers[0].lookup(ip).Empty() then providers[0].lookup(ip)
    else Lookup(providers[1..], ip)
  }

  class IPFilter<Block, Addr> {
    const net: Net<Block, Addr>
    var allow: seq<Place>
    var disallow: seq<Place>
    var providers: seq<Provider>

    constructor (net: Net<Block, Addr>, allow: seq<Place>, disallow: seq<Place>)
      ensures this.net == net && this.allow == allow && this.disallow == disallow && providers == []
    {
      this.net := net;
      this.allow, this.disallow, providers := allow, disallow, [];
    }

    method AddProvider(downloaded: seq<Provider>, online: Provider, download: bool)
      modifies this`providers
      ensures providers == (if download then downloaded else old(providers)) + [online]
    {
      if download {
        providers := downloaded;
      }
      providers := providers + [online];
    }

    method Empty() returns (empty: bool)
      ensures empty <==> AllEmpty(allow) && AllEmpty(disallow)
    {
      for i := 0 to |allow|
        invariant forall j :: 0 <= j < i ==> allow[j].Empty()
      {
        if !allow[i].Empty() {
          return false;
        }
      }
      for i := 0 to |disallow|
        invariant forall j :: 0 <= j < i ==> disallow[j].Empty()
      {
        if !disallow[i].Empty() {
          return false;
        }
      }
      return true;
    }

    method NeedGeoInfo() returns (need: bool)
      ensures need <==> AnyNeedsLookup(allow) || AnyNeedsLookup(disallow)
    {
      var empty := Empty();
      if empty {
        return false;
      }
      for i := 0 to |allow|
        invariant forall j :: 0 <= j < i ==> !NeedsLookup(allow[j])
      {
        if NeedsLookup(allow[i]) {
          return true;
        }
      }
      for i := 0 to |disallow|
        invariant forall j :: 0 <= j < i ==> !NeedsLookup(disallow[j])
      {
        if NeedsLookup(disallow[i]) {
          return true;
        }
      }
      return false;
    }

    method GetLocation(ip: string) returns (loc: Place)
      ensures loc == Lookup(providers, ip)
    {
      for i := 0 to |providers|
        invariant Lookup(providers, ip) == Lookup(providers[i..], ip)
      {
        assert providers[i..][1..] == providers[i + 1..];
        if providers[i].ready {
          loc := providers[i].lookup(ip);
          if !loc.Empty() {
            return loc;
          }
        }
      }
      return Place(ip, "UNKNOWN", "", "");
    }

    // Each rule is copied before it is matched, so the filter's own rules stay as they were written.
    method AllowLocation(loc: Place) returns (allowed: bool)
      ensures allowed == Verdict(net, allow, disallow, loc)
    {
      if loc.Empty() {
        return true;
      }
      for i := 0 to |disallow|
        invariant forall j :: 0 <= j < i ==> !Matches(net, disallow[j], loc)
      {
        var l := new Location(net, disallow[i]);
        var matched := l.Match(loc);
        if matched {
          return false;
        }
      }
      var empty := true;
      for i := 0 to |allow|
        invariant forall j :: 0 <= j < i ==> !Matches(net, allow[j], loc)
        invariant empty <==> forall j :: 0 <= j < i ==> allow[j].Empty()
      {
        var l := new Location(net, allow[i]);
        var matched := l.Match(loc);
        if matched {
          return true;
        }
        if !l.Rule().Empty() {
          empty := false;
        }
      }
      return empty;
    }

    method AllowIP(ip: string) returns (allowed: bool)
      ensures allowed == (|| (AllEmpty(allow) && AllEmpty(disallow))
                          || Verdict(net, allow, disallow,
                                     if AnyNeedsLookup(allow) || AnyNeedsLookup(disallow) then Lookup(providers, ip)
                                     else Place(ip, "", "", "")))
    {
      var empty := Empty();
      if empty {
        return true;
      }
      var loc;
      var need := NeedGeoInfo();
      if need {
        loc := GetLocation(ip);
      } else {
        loc := Place(ip, "", "", "");
      }
      allowed := AllowLocation(loc);
    }
  }

  // Providers report the address they were asked about, or nothing.
  predicate Echoing(providers: seq<Provider>, ip: string) {
    forall i :: 0 <= i < |providers| && providers[i].ready && !providers[i].lookup(ip).Empty() ==>
      providers[i].lookup(ip).ip == ip
  }

  lemma {:induction false} LookupEchoes(providers: seq<Provider>, ip: string)
    requires Echoing(providers, ip)
    ensures Lookup(providers, ip).ip == ip && !Lookup(providers, ip).Empty()
  {
    if providers != [] && !(providers[0].ready && !providers[0].lookup(ip).Empty()) {
      LookupEchoes(providers[1..], ip);
    }
  }

  // Providers that answer every question with the address asked about are among them.
  lemma EchoingMeans(providers: seq<Provider>, ip: string)
    requires forall i :: 0 <= i < |providers| ==> providers[i].lookup(ip).ip == ip || !Answers(providers[i], ip)
    ensures Echoing(providers, ip)
  {
    forall i | 0 <= i < |providers| && providers[i].ready && !providers[i].lookup(ip).Empty()
      ensures providers[i].lookup(ip).ip == ip
    {
      assert Answers(providers[i], ip);
    }
  }

  // Rules without country or city fields see nothing but the address.
  lemma SameAddressSameMatches<Block, Addr>(net: Net<Block, Addr>, rules: seq<Place>, a: Place, b: Place)
    requires !AnyNeedsLookup(rules) && a.ip == b.ip
    ensures AnyMatch(net, rules, a) == AnyMatch(net, rules, b)
  {
    forall i | 0 <= i < |rules|
      ensures Matches(net, rules[i], a) == Matches(net, rules[i], b)
    {
      assert !NeedsLookup(rules[i]);
    }
  }

  // Skipping the lookup gives the verdict the lookup would have led to.
  lemma SkippingLookupIsSafe<Block, Addr>(net: Net<Block, Addr>, allow: seq<Place>, disallow: seq<Place>,
                                          providers: seq<Provider>, ip: string)
    requires !AnyNeedsLookup(allow) && !AnyNeedsLookup(disallow) && ip != "" && Echoing(providers, ip)
    ensures Verdict(net, allow, disallow, Place(ip, "", "", "")) == Verdict(net, allow, disallow, Lookup(providers, ip))
  {
    LookupEchoes(providers, ip);
    SameAddressSameMatches(net, allow, Place(ip, "", "", ""), Lookup(providers, ip));
    SameAddressSameMatches(net, disallow, Place(ip, "", "", ""), Lookup(providers, ip));
  }

  // For the empty address the two verdicts agree exactly when the allow list has no rule to speak of.
  lemma EmptyAddressVerdicts<Block, Addr>(net: Net<Block, Addr>, allow: seq<Place>, disallow: seq<Place>,
                                          providers: seq<Provider>)
    requires !AnyNeedsLookup(allow) && !AnyNeedsLookup(disallow) && Echoing(providers, "") && net.parseIP("") == None
    ensures Verdict(net, allow, disallow, Place("", "", "", "")) == Verdict(net, allow, disallow, Lookup(providers, ""))
       <==> AllEmpty(allow)
  {
    LookupEchoes(providers, "");
    var loc := Lookup(providers, "");
    forall rule: Place | !NeedsLookup(rule)
      ensures !Matches(net, rule, loc)
    {
    }
    assert !AnyMatch(net, allow, loc) && !AnyMatch(net, disallow, loc);
  }

  /* ----- The verdict and the match, case by case ----- */

  // A rule with an address admits the addresses of its block, where an address without a mask is a block by itself; other
  // rules admit the locations of their country, whatever the case of the code; a rule with neither admits nothing.
  lemma AddressRule<Block, Addr>(net: Net<Block, Addr>, rule: Place, location: Place, block: Block)
    requires rule.ip != ""
    requires net.parseCIDR(if exists i :: 0 <= i < |rule.ip| - 1 && rule.ip[i] == '/' && '0' <= rule.ip[i + 1] <= '9'
                           then rule.ip else rule.ip + "/32") == Some(block)
    ensures Matches(net, rule, location)
       <==> net.parseIP(location.ip).Some? && net.contains(block, net.parseIP(location.ip).value)
  {
  }

  lemma BrokenAddressRule<Block, Addr>(net: Net<Block, Addr>, rule: Place, location: Place)
    requires rule.ip != "" && net.parseCIDR(WithMask(rule.ip)) == None
    ensures !Matches(net, rule, location)
  {
  }

  lemma CountryRule<Block, Addr>(net: Net<Block, Addr>, rule: Place, location: Place)
    requires rule.ip == ""
    ensures Matches(net, rule, location) <==> rule.countryCode != "" && net.lower(rule.countryCode) == net.lower(location.countryCode)
  {
  }

  // A location is refused exactly if it says something and either a disallow rule matches it, or no allow rule does
  // although some allow rule says something.
  lemma RefusedIff<Block, Addr>(net: Net<Block, Addr>, allow: seq<Place>, disallow: seq<Place>, location: Place)
    ensures !Verdict(net, allow, disallow, location)
       <==> && location != Place("", "", "", "")
            && (|| (exists i :: 0 <= i < |disallow| && Matches(net, disallow[i], location))
                || (&& (forall i :: 0 <= i < |allow| ==> !Matches(net, allow[i], location))
                    && exists i :: 0 <= i < |allow| && allow[i] != Place("", "", "", "")))
  {
    if i :| 0 <= i < |allow| && allow[i] != Place("", "", "", "") {
      assert !allow[i].Empty();
    }
    if i :| 0 <= i < |allow| && !allow[i].Empty() {
      assert allow[i] != Place("", "", "", "");
    }
  }

  // A lookup is needed exactly if some rule names a country or a city.
  lemma LookupNeededIff(rules: seq<Place>)
    ensures AnyNeedsLookup(rules)
       <==> exists i :: 0 <= i < |rules| && !(rules[i].countryCode == "" && rules[i].country == "" && rules[i].city == "")
  {
    if i :| 0 <= i < |rules| && !(rules[i].countryCode == "" && rules[i].country == "" && rules[i].city == "") {
      assert NeedsLookup(rules[i]);
    }
    if AnyNeedsLookup(rules) {
      var i :| 0 <= i < |rules| && NeedsLookup(rules[i]);
      assert !(rules[i].countryCode == "" && rules[i].country == "" && rules[i].city == "");
    }
  }

  predicate Answers(p: Provider, ip: string) {
    p.ready && p.lookup(ip) != Place("", "", "", "")
  }

  // The first provider that is ready and knows something decides; if none does, the country is unknown.
  lemma {:induction false} FirstAnswerCounts(providers: seq<Provider>, ip: string)
    ensures (forall i :: 0 <= i < |providers| ==> !Answers(providers[i], ip)) ==> Lookup(providers, ip) == Place(ip, "UNKNOWN", "", "")
    ensures forall i :: 0 <= i < |providers| && Answers(providers[i], ip) && (forall j :: 0 <= j < i ==> !Answers(providers[j], ip)) ==>
      Lookup(providers, ip) == providers[i].lookup(ip)
  {
    if providers != [] {
      FirstAnswerCounts(providers[1..], ip);
      assert forall i :: 0 < i < |providers| ==> providers[i] == providers[1..][i - 1];
      if !Answers(providers[0], ip) {
        forall i | 0 <= i < |providers| && Answers(providers[i], ip) && (forall j :: 0 <= j < i ==> !Answers(providers[j], ip))
          ensures Lookup(providers, ip) == providers[i].lookup(ip)
        {
          assert Answers(providers[1..][i - 1], ip);
          assert forall j :: 0 <= j < i - 1 ==> providers[1..][j] == providers[j + 1];
        }
      }
    }
  }
}
