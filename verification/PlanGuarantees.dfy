/** An allocated plan can always be submitted, and says exactly when it cannot. */
module PlanGuarantees {
  import opened Basics
  import opened Sorting
  import opened Text
  import opened AccountSheets
  import opened AccountAllocation
  import opened MaterialGroups
  import opened Plans

  // ---- the shape of an allocation ----

  /** The link type an account role serves. */
  function LinkOfRole(role: string): Option<string> {
    LinkOfDelivery(DeliveryType(role))
  }

  /** Accounts with non-empty CIDs, no two alike. */
  ghost predicate Fresh(accounts: seq<PlanAccount>) {
    (forall i :: 0 <= i < |accounts| ==> accounts[i].cid != "") && Distinct(CidsIn(accounts))
  }

  ghost predicate AllOf(accounts: seq<PlanAccount>, linkType: string) {
    forall i :: 0 <= i < |accounts| ==> accounts[i].role in RolesOf(linkType)
  }

  /** IAA accounts up to `a`, 9.9 accounts up to `b`, 2.9 accounts after it; each part there exactly if its link is. */
  ghost predicate InParts(accounts: seq<PlanAccount>, links: map<string, string>, a: nat, b: nat) {
    && a <= b <= |accounts|
    && AllOf(accounts[..a], "IAA") && AllOf(accounts[a..b], "9.9") && AllOf(accounts[b..], "2.9")
    && (a > 0 <==> "IAA" in links) && (b > a <==> "9.9" in links) && (|accounts| > b <==> "2.9" in links)
  }

  /** The same order of parts, each there at least when the plan has its link. */
  ghost predicate Provides(accounts: seq<PlanAccount>, links: map<string, string>, a: nat, b: nat) {
    && a <= b <= |accounts|
    && AllOf(accounts[..a], "IAA") && AllOf(accounts[a..b], "9.9") && AllOf(accounts[b..], "2.9")
    && ("IAA" in LinkSet(links) ==> a > 0)
    && ("9.9" in LinkSet(links) ==> b > a)
    && ("2.9" in LinkSet(links) ==> |accounts| > b)
  }

  /** What a plan needs of its accounts, wherever they come from. */
  ghost predicate Supplied(accounts: seq<PlanAccount>, links: map<string, string>) {
    Fresh(accounts) && exists a, b :: Provides(accounts, links, a, b)
  }

  lemma FoundRowsHaveGroups(rows: Sheet, groups: seq<string>, taken: set<string>)
    requires FindBlock(rows, groups, taken).Some?
    ensures var block := FindBlock(rows, groups, taken).value.rows;
      |block| == |groups| && forall i :: 0 <= i < |block| ==> block[i].group == groups[i]
  {
    var k := FindStart(rows, groups, taken, 0).value;
    assert MatchesAt(rows, k, groups, taken);
    var block := rows[k..k + |groups|];
    assert forall i :: 0 <= i < |block| ==> Fits(block[i], groups[i], taken);
  }

  lemma IaaGroups()
    ensures |Groups(IAA_BLOCK)| == 10 && forall i :: 0 <= i < 10 ==> Groups(IAA_BLOCK)[i] in IAA_ROLES
  {
    var last := [("BX", 1)];
    assert IAA_BLOCK[1..] == [("B4", 3), ("B7", 3), ("BX", 1)];
    assert IAA_BLOCK[1..][1..] == [("B7", 3), ("BX", 1)];
    assert IAA_BLOCK[1..][1..][1..] == last && last[1..] == [];
    assert Groups(last) == Repeat("BX", 1);
  }

  lemma IapGroups(required: set<string>)
    ensures Groups(IapPatterns(required)) ==
      (if "9.9" in required then Repeat("B1-9.9", 3) else []) + (if "2.9" in required then Repeat("B2-2.9", 3) else [])
  {
    var two := [("B2-2.9", 3)];
    assert two[1..] == [] && Groups(two) == Repeat("B2-2.9", 3);
    if "9.9" in required {
      assert IapPatterns(required)[1..] == if "2.9" in required then two else [];
    }
  }

  /** An allocation comes in parts: the IAA block, then the 9.9 and the 2.9 rows, in that order. */
  lemma AllocationIsInParts(links: map<string, string>, includeTest: bool, rows: Sheet) returns (a: nat, b: nat)
    requires Allocate(links, includeTest, rows).Some?
    ensures InParts(Allocate(links, includeTest, rows).value, links, a, b)
  {
    hide FindBlock, Groups, IapPatterns;
    var accounts := Allocate(links, includeTest, rows).value;
    var iaa := if "IAA" in links then FindBlock(rows, Groups(IAA_BLOCK), {}).value.rows else [];
    var required := RequiredIap(links);
    var iap := if required == {} then [] else FindBlock(rows, Groups(IapPatterns(required)), Cids(iaa)).value.rows;
    if "IAA" in links {
      FoundRowsHaveGroups(rows, Groups(IAA_BLOCK), {});
    }
    if required != {} {
      FoundRowsHaveGroups(rows, Groups(IapPatterns(required)), Cids(iaa));
    }
    a := |iaa|;
    b := a + if "9.9" in links then 3 else 0;
    assert |accounts| == |iaa| + |iap|;
    assert forall i :: 0 <= i < |accounts| ==> accounts[i].role == (iaa + iap)[i].group;
    BlocksAreParts(accounts, links, iaa, iap, a, b);
  }

  lemma BlocksAreParts(accounts: seq<PlanAccount>, links: map<string, string>, iaa: Sheet, iap: Sheet, a: nat, b: nat)
    requires |accounts| == |iaa| + |iap| && forall i :: 0 <= i < |accounts| ==> accounts[i].role == (iaa + iap)[i].group
    requires a == |iaa| && b == a + if "9.9" in links then 3 else 0
    requires HasGroups(iaa, if "IAA" in links then Groups(IAA_BLOCK) else [])
    requires HasGroups(iap, if RequiredIap(links) != {} then Groups(IapPatterns(RequiredIap(links))) else [])
    ensures InParts(accounts, links, a, b)
  {
    hide Groups, IapPatterns;
    IaaGroups();
    IapGroups(RequiredIap(links));
  }

  predicate HasGroups(rows: Sheet, groups: seq<string>) {
    |rows| == |groups| && forall i :: 0 <= i < |rows| ==> rows[i].group == groups[i]
  }

  // ---- routing ----

  /** The accounts whose link the plan has, in account order. */
  function Wanted(accounts: seq<PlanAccount>, linkSet: map<string, string>): seq<PlanAccount> {
    if accounts == [] then []
    else
      var rest := Wanted(accounts[1..], linkSet);
      if IsWanted(accounts[0], linkSet) then [accounts[0]] + rest else rest
  }

  predicate IsWanted(account: PlanAccount, linkSet: map<string, string>) {
    var link := LinkOfRole(account.role);
    link.Some? && link.value in linkSet
  }

  lemma {:induction false} WantedAppend(x: seq<PlanAccount>, y: seq<PlanAccount>, linkSet: map<string, string>)
    ensures Wanted(x + y, linkSet) == Wanted(x, linkSet) + Wanted(y, linkSet)
  {
    hide IsWanted;
    if x == [] {
      assert x + y == y;
    } else {
      WantedAppend(x[1..], y, linkSet);
      var w, v := Wanted(x[1..], linkSet), Wanted(y, linkSet);
      assert [x[0]] + (w + v) == [x[0]] + w + v;
      assert (x + y)[0] == x[0] && (x + y)[1..] == x[1..] + y;
    }
  }

  lemma {:induction false} WantedPart(accounts: seq<PlanAccount>, linkType: string, linkSet: map<string, string>)
    requires AllOf(accounts, linkType)
    ensures Wanted(accounts, linkSet) == if linkType in linkSet then accounts else []
  {
    if accounts != [] {
      assert AllOf(accounts[1..], linkType);
      WantedPart(accounts[1..], linkType, linkSet);
      assert accounts == [accounts[0]] + accounts[1..];
    }
  }

  lemma CidsInAppend(x: seq<PlanAccount>, y: seq<PlanAccount>)
    ensures CidsIn(x + y) == CidsIn(x) + CidsIn(y)
  {
  }

  /** Without repetitions, routing by roles is a plain selection: everything of a part with the roles ... */
  lemma {:induction false} RolesSelectAll(before: seq<PlanAccount>, part: seq<PlanAccount>, roles: set<string>)
    requires Fresh(before + part) && CidsByRoles(before, roles) == []
    requires forall i :: 0 <= i < |part| ==> part[i].role in roles
    ensures CidsByRoles(before + part, roles) == CidsIn(part)
    decreases |part|
  {
    if part == [] {
      assert before + part == before;
    } else {
      var n := |part| - 1;
      var all := before + part;
      assert all[..|all| - 1] == before + part[..n];
      assert before + part[..n] + [part[n]] == all;
      FreshPrefix(before + part[..n], [part[n]]);
      RolesSelectAll(before, part[..n], roles);
      assert CidsIn(part) == CidsIn(part[..n]) + [part[n].cid];
      forall i | 0 <= i < n ensures CidsIn(part[..n])[i] != part[n].cid {
        assert CidsIn(all)[|before| + i] != CidsIn(all)[|before| + n];
      }
      assert part[n].cid !in CidsIn(part[..n]);
      assert all[|all| - 1] == part[n];
    }
  }

  /** ... and nothing of a part without them. */
  lemma {:induction false} RolesSelectNone(before: seq<PlanAccount>, part: seq<PlanAccount>, roles: set<string>)
    requires forall i :: 0 <= i < |part| ==> part[i].role !in roles
    ensures CidsByRoles(before + part, roles) == CidsByRoles(before, roles)
    decreases |part|
  {
    if part == [] {
      assert before + part == before;
    } else {
      var n := |part| - 1;
      assert (before + part)[..|before + part| - 1] == before + part[..n];
      RolesSelectNone(before, part[..n], roles);
    }
  }

  lemma FreshPrefix(x: seq<PlanAccount>, y: seq<PlanAccount>)
    requires Fresh(x + y)
    ensures Fresh(x)
  {
    assert forall i :: 0 <= i < |x| ==> (x + y)[i] == x[i] && CidsIn(x + y)[i] == CidsIn(x)[i];
  }

  /** Each link type is routed exactly its own part. */
  lemma PartsAreRouted(x: seq<PlanAccount>, y: seq<PlanAccount>, z: seq<PlanAccount>)
    requires Fresh(x + y + z) && AllOf(x, "IAA") && AllOf(y, "9.9") && AllOf(z, "2.9")
    ensures CidsByRoles(x + y + z, RolesOf("IAA")) == CidsIn(x)
    ensures CidsByRoles(x + y + z, RolesOf("9.9")) == CidsIn(y)
    ensures CidsByRoles(x + y + z, RolesOf("2.9")) == CidsIn(z)
  {
    FreshPrefix(x + y, z);
    FreshPrefix(x, y);
    assert [] + x == x;
    RolesSelectAll([], x, RolesOf("IAA"));
    RolesSelectNone(x, y, RolesOf("IAA"));
    RolesSelectNone(x + y, z, RolesOf("IAA"));
    RolesSelectNone([], x, RolesOf("9.9"));
    RolesSelectAll(x, y, RolesOf("9.9"));
    RolesSelectNone(x + y, z, RolesOf("9.9"));
    RolesSelectNone([], x, RolesOf("2.9"));
    RolesSelectNone(x, y, RolesOf("2.9"));
    RolesSelectAll(x + y, z, RolesOf("2.9"));
  }

  lemma {:induction false} TestAccountIsB4(accounts: seq<PlanAccount>)
    ensures FirstTest(accounts).Some? ==> FirstTest(accounts).value in accounts && IsB4(FirstTest(accounts).value.role)
    ensures FirstB4(accounts).Some? ==> FirstB4(accounts).value in accounts && IsB4(FirstB4(accounts).value.role)
  {
    if accounts != [] {
      TestAccountIsB4(accounts[1..]);
    }
  }

  lemma OtherRolesAreNotB4(role: string)
    ensures role in RolesOf("9.9") + RolesOf("2.9") ==> !IsB4(role)
  {
    assert role in RolesOf("9.9") + RolesOf("2.9") ==> role[1] != '4';
  }

  /** The test account is one of the IAA accounts already, so marking tests routes nothing new. */
  lemma TestAccountIsRouted(x: seq<PlanAccount>, y: seq<PlanAccount>, z: seq<PlanAccount>)
    requires AllOf(x, "IAA") && AllOf(y, "9.9") && AllOf(z, "2.9")
    ensures WithTestAccount(CidsIn(x), x + y + z) == CidsIn(x)
  {
    var accounts := x + y + z;
    TestAccountIsB4(accounts);
    if TestAccount(accounts).Some? {
      var account := TestAccount(accounts).value;
      var i :| 0 <= i < |accounts| && accounts[i] == account;
      if i >= |x| {
        OtherRolesAreNotB4(account.role);
      }
      assert CidsIn(x)[i] == account.cid;
    }
  }

  lemma {:induction false} DedupeKeepsDistinct(values: seq<string>)
    requires Distinct(values)
    ensures Dedupe(values) == values
    decreases |values|
  {
    if values != [] {
      var n := |values| - 1;
      DedupeKeepsDistinct(values[..n]);
      assert values == values[..n] + [values[n]];
      assert values[n] !in values[..n];
    }
  }

  /** What is kept of the three parts. */
  function Kept(x: seq<PlanAccount>, y: seq<PlanAccount>, z: seq<PlanAccount>, linkSet: map<string,
      string>): seq<PlanAccount> {
    (if "IAA" in linkSet then x else []) + (if "9.9" in linkSet then y else []) + (if "2.9" in linkSet then z else [])
  }

  lemma WantedIsKept(x: seq<PlanAccount>, y: seq<PlanAccount>, z: seq<PlanAccount>, linkSet: map<string, string>)
    requires AllOf(x, "IAA") && AllOf(y, "9.9") && AllOf(z, "2.9")
    ensures Wanted(x + y + z, linkSet) == Kept(x, y, z, linkSet)
  {
    hide Wanted;
    WantedAppend(x + y, z, linkSet);
    WantedAppend(x, y, linkSet);
    WantedPart(x, "IAA", linkSet);
    WantedPart(y, "9.9", linkSet);
    WantedPart(z, "2.9", linkSet);
  }

  lemma RoutesTheKept(x: seq<PlanAccount>, y: seq<PlanAccount>, z: seq<PlanAccount>, linkSet: map<string, string>,
      includeTest: bool)
    requires Fresh(x + y + z) && AllOf(x, "IAA") && AllOf(y, "9.9") && AllOf(z, "2.9")
    ensures AccountCids(linkSet, x + y + z, includeTest) == CidsIn(Kept(x, y, z, linkSet))
    ensures Distinct(CidsIn(Kept(x, y, z, linkSet)))
  {
    hide Fresh, CidsByRoles, AllOf, WithTestAccount, Dedupe;
    PartsAreRouted(x, y, z);
    TestAccountIsRouted(x, y, z);
    var wx := if "IAA" in linkSet then x else [];
    var wy := if "9.9" in linkSet then y else [];
    var wz := if "2.9" in linkSet then z else [];
    CidsInAppend(wx + wy, wz);
    CidsInAppend(wx, wy);
    assert CidsIn([]) == [];
    WantedIsDistinct(x, y, z, linkSet);
    DedupeKeepsDistinct(CidsIn(wx) + CidsIn(wy) + CidsIn(wz));
  }

  /** The plan's CIDs are those of the wanted accounts, in account order, each once. */
  lemma RoutesTheWanted(links: map<string, string>, accounts: seq<PlanAccount>, includeTest: bool, a: nat, b: nat)
    requires Fresh(accounts) && Provides(accounts, links, a, b)
    ensures AccountCids(LinkSet(links), accounts, includeTest) == CidsIn(Wanted(accounts, LinkSet(links)))
    ensures Distinct(CidsIn(Wanted(accounts, LinkSet(links))))
    ensures forall t :: t in LinkSet(links) ==> Serves(Wanted(accounts, LinkSet(links)), t)
  {
    hide Fresh, AllOf, AccountCids, Wanted, Kept, CidsIn, Serves;
    var linkSet := LinkSet(links);
    var x, y, z := accounts[..a], accounts[a..b], accounts[b..];
    assert x + y + z == accounts;
    WantedIsKept(x, y, z, linkSet);
    RoutesTheKept(x, y, z, linkSet, includeTest);
    EachLinkIsServed(x, y, z, linkSet);
  }

  ghost predicate Serves(accounts: seq<PlanAccount>, linkType: string) {
    exists i :: 0 <= i < |accounts| && accounts[i].role in RolesOf(linkType)
  }

  lemma EachLinkIsServed(x: seq<PlanAccount>, y: seq<PlanAccount>, z: seq<PlanAccount>, linkSet: map<string, string>)
    requires AllOf(x, "IAA") && AllOf(y, "9.9") && AllOf(z, "2.9")
    requires forall t :: t in linkSet ==> t in LINK_TYPES
    requires ("IAA" in linkSet ==> x != []) && ("9.9" in linkSet ==> y != []) && ("2.9" in linkSet ==> z != [])
    ensures forall t :: t in linkSet ==> Serves(Kept(x, y, z, linkSet), t)
  {
    var kept := Kept(x, y, z, linkSet);
    var wx := if "IAA" in linkSet then x else [];
    var wy := if "9.9" in linkSet then y else [];
    forall t | t in linkSet ensures Serves(kept, t) {
      var i := if t == "IAA" then 0 else if t == "9.9" then |wx| else |wx| + |wy|;
      assert kept[i].role in RolesOf(t);
    }
  }

  lemma DistinctWithout(p: seq<string>, q: seq<string>, r: seq<string>)
    requires Distinct(p + q + r)
    ensures Distinct(p + r)
  {
    var all := p + q + r;
    forall i, j | 0 <= i < j < |p + r| ensures (p + r)[i] != (p + r)[j] {
      assert (p + r)[i] == all[if i < |p| then i else i + |q|];
      assert (p + r)[j] == all[if j < |p| then j else j + |q|];
    }
  }

  lemma WantedIsDistinct(x: seq<PlanAccount>, y: seq<PlanAccount>, z: seq<PlanAccount>, linkSet: map<string, string>)
    requires Fresh(x + y + z)
    ensures var wx := if "IAA" in linkSet then x else [];
      var wy := if "9.9" in linkSet then y else [];
      var wz := if "2.9" in linkSet then z else [];
      Distinct(CidsIn(wx) + CidsIn(wy) + CidsIn(wz))
  {
    hide Distinct, CidsIn;
    var (u, v, w) := (CidsIn(x), CidsIn(y), CidsIn(z));
    CidsInAppend(x + y, z);
    CidsInAppend(x, y);
    NoCids();
    var p := if "IAA" in linkSet then u else [];
    assert [] + u + (v + w) == u + v + w && [] + (v + w) == [] + v + w;
    if "IAA" !in linkSet {
      DistinctWithout([], u, v + w);
    }
    var q := if "9.9" in linkSet then v else [];
    assert p + v + w == p + v + w && p + [] + w == p + w;
    if "9.9" !in linkSet {
      DistinctWithout(p, v, w);
    }
    assert p + q + w + [] == p + q + w && p + q + [] == p + q;
    if "2.9" !in linkSet {
      DistinctWithout(p + q, w, []);
    }
  }

  lemma NoCids()
    ensures CidsIn([]) == []
  {
  }

  // ---- configurations ----

  lemma {:induction false} ConfigsFollowAccounts(accounts: seq<PlanAccount>, now: Time)
    requires Distinct(CidsIn(accounts))
    ensures |CidConfigs(accounts, now)| == |accounts|
    ensures forall i :: 0 <= i < |accounts| ==> CidConfigs(accounts, now)[i] == ConfigFor(accounts[i], now)
    decreases |accounts|
  {
    if accounts != [] {
      var n := |accounts| - 1;
      assert forall i :: 0 <= i <= n ==> CidsIn(accounts)[i] == accounts[i].cid;
      assert CidsIn(accounts[..n]) == CidsIn(accounts)[..n];
      ConfigsFollowAccounts(accounts[..n], now);
      assert accounts[n].cid !in CidsIn(accounts[..n]) by {
        assert forall i :: 0 <= i < n ==> CidsIn(accounts)[i] != CidsIn(accounts)[n];
      }
    }
  }

  lemma {:induction false} OnlyConfig(configs: seq<CidConfig>, k: nat, now: Time)
    requires k < |configs| && forall i :: 0 <= i < |configs| && i != k ==> configs[i].cid != configs[k].cid
    ensures ConfigsOf(configs[k].cid, configs) == [configs[k]]
    ensures ValidConfigsFor(configs[k].cid, configs, now) == if ValidFor(configs[k].cid, configs[k], now)
        then [configs[k]] else []
    decreases |configs|
  {
    hide ValidFor;
    var cid := configs[k].cid;
    assert configs == [configs[0]] + configs[1..];
    if k == 0 {
      NoConfig(configs[1..], cid, now);
    } else {
      OnlyConfig(configs[1..], k - 1, now);
      assert configs[0].cid != cid ==> !ValidFor(cid, configs[0], now) by {
        OtherCid(cid, configs[0], now);
      }
    }
  }

  lemma OtherCid(cid: string, config: CidConfig, now: Time)
    ensures config.cid != cid ==> !ValidFor(cid, config, now)
  {
  }

  lemma {:induction false} NoConfig(configs: seq<CidConfig>, cid: string, now: Time)
    requires forall i :: 0 <= i < |configs| ==> configs[i].cid != cid
    ensures ConfigsOf(cid, configs) == [] && ValidConfigsFor(cid, configs, now) == []
    decreases |configs|
  {
    if configs != [] {
      NoConfig(configs[1..], cid, now);
    }
  }

  /** A generated configuration is complete, and effective from a day before it was made. */
  lemma GeneratedConfigsAreComplete(account: PlanAccount, linkType: string, made: Time, now: Time)
    requires account.role in RolesOf(linkType)
    ensures var config := ConfigFor(account, made);
      && ValidFor(account.cid, config, now) == (now >= made - DAY)
      && NonBlank(config.douyinAccount) && NonBlank(config.adPreset) && NonBlank(config.accountOpenPreset)
      && LinkOfDelivery(config.deliveryType) == Some(linkType)
      && (linkType != "IAA" ==> config.deliveryType in RolesOf(linkType))
  {
    var config := ConfigFor(account, made);
    VisibleStart(config.douyinAccount);
    VisibleStart(config.adPreset);
    VisibleStart(config.accountOpenPreset);
    VisibleStart(config.deliveryType);
    VisibleStart(SUBJECT);
  }

  lemma {:induction false} WantedAccounts(accounts: seq<PlanAccount>, linkSet: map<string, string>)
    ensures forall w :: w in Wanted(accounts, linkSet) <==> w in accounts && IsWanted(w, linkSet)
  {
    hide IsWanted;
    if accounts != [] {
      WantedAccounts(accounts[1..], linkSet);
      assert accounts == [accounts[0]] + accounts[1..];
    }
  }

  lemma LinkOfItsRole(role: string, linkType: string)
    requires role in RolesOf(linkType)
    ensures LinkOfRole(role) == Some(linkType)
  {
  }

  lemma RoleHasLink(accounts: seq<PlanAccount>, links: map<string, string>, a: nat, b: nat, k: nat)
      returns (linkType: string)
    requires Provides(accounts, links, a, b) && k < |accounts|
    ensures accounts[k].role in RolesOf(linkType) && LinkOfRole(accounts[k].role) == Some(linkType)
  {
    linkType := if k < a then "IAA" else if k < b then "9.9" else "2.9";
    assert accounts[k] == if k < a then accounts[..a][k] else if k < b then accounts[a..b][k - a]
        else accounts[b..][k - b];
    LinkOfItsRole(accounts[k].role, linkType);
  }

  /** The configuration of a wanted account is found, complete, and leads back to the account's own link. */
  ghost predicate Configured(w: PlanAccount, linkSet: map<string, string>, configs: seq<CidConfig>, made: Time,
      now: Time) {
    var config := ConfigFor(w, made);
    var link := LinkOfDelivery(config.deliveryType);
    && ConfigsOf(w.cid, configs) == [config]
    && ValidConfigsFor(w.cid, configs, now) == (if now >= made - DAY then [config] else [])
    && NonBlank(config.douyinAccount) && NonBlank(config.adPreset) && NonBlank(config.accountOpenPreset)
    && link.Some? && link.value in linkSet && w.role in RolesOf(link.value)
    && (link.value != "IAA" ==> config.deliveryType in RolesOf(link.value))
  }

  lemma WantedIsConfigured(accounts: seq<PlanAccount>, links: map<string, string>, a: nat, b: nat, w: PlanAccount,
      made: Time, now: Time)
    requires Fresh(accounts) && Provides(accounts, links, a, b) && w in Wanted(accounts, LinkSet(links))
    ensures Configured(w, LinkSet(links), CidConfigs(accounts, made), made, now)
  {
    hide ValidFor, NonBlank, LinkSet, Provides, CidConfigs, Wanted, ConfigsOf, ValidConfigsFor;
    var linkSet := LinkSet(links);
    WantedAccounts(accounts, linkSet);
    var k :| 0 <= k < |accounts| && accounts[k] == w;
    var linkType := RoleHasLink(accounts, links, a, b, k);
    var configs := CidConfigs(accounts, made);
    ConfigsFollowAccounts(accounts, made);
    forall i | 0 <= i < |configs| && i != k ensures configs[i].cid != configs[k].cid {
      assert CidsIn(accounts)[i] != CidsIn(accounts)[k];
    }
    OnlyConfig(configs, k, now);
    GeneratedConfigsAreComplete(w, linkType, made, now);
  }

  // ---- validation ----

  lemma {:induction false} CidIssuesAddUp(cids: seq<string>, configs: seq<CidConfig>, now: Time)
    ensures AllCidIssues(cids, configs, now) == [] <==> forall i :: 0 <= i < |cids| ==>
      CidIssues(cids[i], configs, now) == []
    decreases |cids|
  {
    hide CidIssues;
    if cids != [] {
      CidIssuesAddUp(cids[1..], configs, now);
      var first, rest := CidIssues(cids[0], configs, now), AllCidIssues(cids[1..], configs, now);
      assert |first + rest| == |first| + |rest|;
      assert cids == [cids[0]] + cids[1..];
    }
  }

  lemma ConfiguredIssues(w: PlanAccount, linkSet: map<string, string>, configs: seq<CidConfig>, made: Time, now: Time)
    requires Configured(w, linkSet, configs, made, now)
    ensures CidIssues(w.cid, configs, now) == [] <==> now >= made - DAY
  {
    hide NonBlank;
  }

  lemma ProjectsForMaterials(count: int, rules: seq<RuleRange>)
    ensures Calculate(count, rules).Err? <==> count < 0
    ensures count >= 0 ==> (Calculate(count, rules).value.projectCount > 0 <==> count > 0)
  {
    if count > 0 {
      if TestRules(rules) != [] {
        TestPlansAreTight(count, rules);
        var plan := Calculate(count, rules).value;
        if plan.projectCount <= 0 {
          MulMonotone(plan.projectCount, 0, plan.adLimitPerProject);
          CeilIsLeast(count, PerGroup(count, TestRules(rules)));
        }
      }
    }
  }

  lemma NamesHaveMarkers(platform: string, dramaName: string, dates: NameDates, planType: PlanType)
    ensures HasMarker(TaskName(platform, dramaName, dates, planType))
        && TaskName(platform, dramaName, dates, planType) != ""
  {
    ContainsPart(platform + "#" + PlanTypeText(planType) + dramaName + dates.delivery, Marker(planType),
      "-" + dates.today + "-" + dates.clock + "-1");
  }

  /** The accounts of a plan are those allocated for its links, with distinct non-empty CIDs. */
  ghost predicate Allocated(input: PlanInput, rows: Sheet) {
    Allocate(input.links, input.includeTest, rows) == Some(input.accounts) && Fresh(input.accounts)
  }

  /** All CIDs of the plan are wanted accounts' CIDs; their configurations decide the CID and template checks. */
  lemma CidChecksDependOnTime(accounts: seq<PlanAccount>, links: map<string, string>, a: nat, b: nat, includeTest: bool,
      made: Time, now: Time)
    requires Fresh(accounts) && Provides(accounts, links, a, b)
    ensures var cids := AccountCids(LinkSet(links), accounts, includeTest);
      var configs := CidConfigs(accounts, made);
      && (LinkSet(links) != map[] ==> (AllCidIssues(cids, configs, now) == [] <==> now >= made - DAY))
      && (now >= made - DAY ==> forall t :: t in LinkSet(links) && t != "IAA" ==> Covered(t, cids, configs, now))
  {
    hide Fresh, Provides, AccountCids, CidConfigs, CidIssues, Covered, ValidConfigsFor, Configured, Wanted, LinkSet;
    var linkSet, configs := LinkSet(links), CidConfigs(accounts, made);
    RoutesTheWanted(links, accounts, includeTest, a, b);
    var wanted := Wanted(accounts, linkSet);
    var cids := CidsIn(wanted);
    CidIssuesAddUp(cids, configs, now);
    forall i | 0 <= i < |wanted|
      ensures Configured(wanted[i], linkSet, configs, made, now)
      ensures CidIssues(cids[i], configs, now) == [] <==> now >= made - DAY
    {
      WantedIsConfigured(accounts, links, a, b, wanted[i], made, now);
      ConfiguredIssues(wanted[i], linkSet, configs, made, now);
    }
    if linkSet != map[] {
      var t :| t in linkSet;
      assert Serves(wanted, t);
      assert CidIssues(cids[0], configs, now) == [] <==> now >= made - DAY;
    }
    if now >= made - DAY {
      forall t | t in linkSet && t != "IAA" ensures Covered(t, cids, configs, now) {
        assert Serves(wanted, t);
        var i :| 0 <= i < |wanted| && wanted[i].role in RolesOf(t);
        ConfiguredCovers(wanted[i], linkSet, configs, made, now, t);
        assert cids[i] in cids;
        CoveredBy(t, cids, configs, now, cids[i]);
      }
    }
  }

  lemma ConfiguredCovers(w: PlanAccount, linkSet: map<string, string>, configs: seq<CidConfig>, made: Time, now: Time,
      t: string)
    requires Configured(w, linkSet, configs, made, now) && now >= made - DAY && t != "IAA" && w.role in RolesOf(t)
    ensures ValidConfigsFor(w.cid, configs, now) == [ConfigFor(w, made)]
        && ConfigFor(w, made).deliveryType in RolesOf(t)
  {
    hide NonBlank;
  }

  lemma CoveredBy(t: string, cids: seq<string>, configs: seq<CidConfig>, now: Time, cid: string)
    requires cid in cids && |ValidConfigsFor(cid, configs, now)| == 1
    requires ValidConfigsFor(cid, configs, now)[0].deliveryType in RolesOf(t)
    ensures Covered(t, cids, configs, now)
  {
  }

  /** The accounts allocated for a plan's links are what it needs. */
  lemma AllocatedIsSupplied(input: PlanInput, rows: Sheet)
    requires Allocated(input, rows)
    ensures Supplied(input.accounts, input.links)
  {
    hide Fresh, Allocate, AllOf;
    var a, b := AllocationIsInParts(input.links, input.includeTest, rows);
    assert Provides(input.accounts, input.links, a, b);
  }

  /**
   * A plan built from the accounts it needs passes the checks exactly when it has a link, has materials, and the
   * clock has not gone back more than a day since the CID configurations were generated.
   */
  lemma SuppliedPlansAreValid(input: PlanInput, made: Time, now: Time)
    requires Supplied(input.accounts, input.links)
    ensures Build(input).Err? <==> input.materialCount < 0
    ensures Build(input).Ok? ==>
      (Validate(Build(input).value, CidConfigs(input.accounts, made), now) == [] <==>
        LinkSet(input.links) != map[] && input.materialCount > 0 && now >= made - DAY)
  {
    hide Fresh, Provides, AccountCids, CidConfigs, Covered, LinkSet, Calculate, AllCidIssues, HasMarker, TaskName;
    var a: nat, b: nat :| Provides(input.accounts, input.links, a, b);
    CidChecksDependOnTime(input.accounts, input.links, a, b, input.includeTest, made, now);
    ProjectsForMaterials(input.materialCount, input.materialRanges);
    NamesHaveMarkers(input.platform, input.dramaName, input.dates,
        PrimaryPlanType(LinkSet(input.links), input.includeTest));
  }

  /** The same for allocated accounts. */
  lemma AllocatedPlansAreValid(input: PlanInput, rows: Sheet, made: Time, now: Time)
    requires Allocated(input, rows)
    ensures Build(input).Err? <==> input.materialCount < 0
    ensures Build(input).Ok? ==>
      (Validate(Build(input).value, CidConfigs(input.accounts, made), now) == [] <==>
        LinkSet(input.links) != map[] && input.materialCount > 0 && now >= made - DAY)
  {
    hide Allocated, Supplied, Build, Validate, CidConfigs, LinkSet;
    AllocatedIsSupplied(input, rows);
    SuppliedPlansAreValid(input, made, now);
  }

  // ---- the form ----

  /** The promotion content of each link type and platform, word for word. */
  lemma PromotionContent(platform: string, dramaName: string)
    ensures var shown := if platform == "TOMATO" then "番茄" else if platform == "JUBIAN" then "剧变"
        else if platform == "OCEAN" then "巨量" else if platform == "DELIVERY" then "投放系统" else platform;
      && PromotionName("IAA", platform, dramaName) == "iaa-" + shown + "-" + dramaName
      && PromotionName("9.9", platform, dramaName) == "9.9-" + shown + "-" + dramaName
      && PromotionName("2.9", platform, dramaName) == "2.9-" + shown + "-" + dramaName
  {
    assert "iaa" + "-" == "iaa-" && "9.9" + "-" == "9.9-" && "2.9" + "-" == "2.9-";
  }

  /** Trimming a promotion name keeps the drama name at its end exactly when that has no trailing white space. */
  lemma PromotionEndsWithDrama(linkType: string, platform: string, dramaName: string)
    requires linkType in LINK_TYPES
    ensures var name := PromotionName(linkType, platform, dramaName);
      && Strip(name) != ""
      && (EndsWith(Strip(name), "-" + dramaName) <==> !TrailingSpace(dramaName))
      && (!TrailingSpace(dramaName) ==> Strip(name) == name)
  {
    var name := PromotionName(linkType, platform, dramaName);
    var before := (if linkType == "IAA" then "iaa" else linkType) + "-" + PlatformLabel(platform);
    assert name == before + ("-" + dramaName);
    assert name[0] in {'i', '9', '2'};
    VisibleStart(name);
    if TrailingSpace(dramaName) {
      assert ("-" + dramaName)[|dramaName|] == dramaName[|dramaName| - 1];
    } else {
      assert name[|name| - 1] == ("-" + dramaName)[|dramaName|];
      assert name[|before|..] == "-" + dramaName;
    }
  }

  /** The form row an account must get: its own configuration and the promotion content of its own link. */
  function ExpectedRow(account: PlanAccount, platform: string, dramaName: string): CidFormRow
    requires LinkOfRole(account.role).Some?
  {
    var linkType := LinkOfRole(account.role).value;
    CidFormRow(account.cid, Strip("dy-" + account.cid), Strip("open-" + account.cid), Strip("ad-" + account.cid),
      PromotionName(linkType, platform, dramaName), linkType)
  }

  lemma ConfiguredRow(spec: PlanSpec, w: PlanAccount, platform: string, configs: seq<CidConfig>, made: Time)
    requires Configured(w, spec.linkSet, configs, made, made) && forall t :: t in spec.linkSet ==> t in LINK_TYPES
    requires spec.promotionConfigs == map t | t in spec.linkSet :: PromotionName(t, platform, spec.dramaName)
    ensures LinkOfRole(w.role).Some?
    ensures FormRow(spec, configs, w.cid) ==
      if TrailingSpace(spec.dramaName) then Err(Invalid) else Ok(ExpectedRow(w, platform, spec.dramaName))
  {
    hide ConfigsOf, ValidConfigsFor, PromotionName, EndsWith, Strip;
    var linkType := LinkOfDelivery(DeliveryType(w.role)).value;
    PromotionEndsWithDrama(linkType, platform, spec.dramaName);
  }

  lemma {:induction false} RowsAddUp(spec: PlanSpec, configs: seq<CidConfig>, cids: seq<string>)
    ensures FormRows(spec, configs, cids).Ok? <==> forall i :: 0 <= i < |cids| ==> FormRow(spec, configs, cids[i]).Ok?
    ensures FormRows(spec, configs, cids).Err? ==> FormRows(spec, configs, cids).error == Invalid
    ensures FormRows(spec, configs, cids).Ok? ==>
      |FormRows(spec, configs, cids).value| == |cids|
      && forall i :: 0 <= i < |cids| ==> Ok(FormRows(spec, configs, cids).value[i]) == FormRow(spec, configs, cids[i])
    decreases |cids|
  {
    hide FormRow;
    if cids != [] {
      var n := |cids| - 1;
      RowsAddUp(spec, configs, cids[..n]);
      assert cids == cids[..n] + [cids[n]];
      RowFailsInvalid(spec, configs, cids[n]);
    }
  }

  lemma RowFailsInvalid(spec: PlanSpec, configs: seq<CidConfig>, cid: string)
    ensures FormRow(spec, configs, cid).Err? ==> FormRow(spec, configs, cid).error == Invalid
  {
  }

  predicate HaveLinks(accounts: seq<PlanAccount>) {
    forall i :: 0 <= i < |accounts| ==> LinkOfRole(accounts[i].role).Some?
  }

  function ExpectedRows(accounts: seq<PlanAccount>, platform: string, dramaName: string): seq<CidFormRow>
    requires HaveLinks(accounts)
  {
    seq(|accounts|, i requires 0 <= i < |accounts| => ExpectedRow(accounts[i], platform, dramaName))
  }

  /** The form row of one wanted account. */
  lemma WantedRow(input: PlanInput, made: Time, a: nat, b: nat, w: PlanAccount)
    requires Fresh(input.accounts) && Provides(input.accounts, input.links, a, b) && Build(input).Ok?
    requires w in Wanted(input.accounts, LinkSet(input.links))
    ensures LinkOfRole(w.role).Some?
    ensures FormRow(Build(input).value, CidConfigs(input.accounts, made), w.cid) ==
      if TrailingSpace(input.dramaName) then Err(Invalid) else Ok(ExpectedRow(w, input.platform, input.dramaName))
  {
    hide Fresh, Provides, AccountCids, CidConfigs, LinkSet, FormRow, Wanted, Configured, ExpectedRow, LinkOfRole,
        Calculate, TaskName, PromotionName, TrailingSpace;
    LinkSetIsKnown(input.links);
    WantedIsConfigured(input.accounts, input.links, a, b, w, made, made);
    ConfiguredRow(Build(input).value, w, input.platform, CidConfigs(input.accounts, made), made);
  }

  lemma RowsOfSupplied(input: PlanInput, made: Time)
    requires Supplied(input.accounts, input.links) && Build(input).Ok?
    ensures var plan := Build(input).value;
      var formRows := FormRows(plan, CidConfigs(input.accounts, made), plan.accountCids);
      var wanted := Wanted(input.accounts, plan.linkSet);
      && HaveLinks(wanted)
      && (wanted == [] <==> plan.linkSet == map[])
      && (formRows.Ok? <==> wanted == [] || !TrailingSpace(input.dramaName))
      && (formRows.Ok? ==> formRows.value == ExpectedRows(wanted, input.platform, input.dramaName))
      && (formRows.Err? ==> formRows.error == Invalid)
  {
    hide Fresh, Provides, AccountCids, CidConfigs, LinkSet, FormRow, FormRows, Wanted, ExpectedRow, LinkOfRole,
        Calculate, TaskName, PromotionName, TrailingSpace;
    var a: nat, b: nat :| Provides(input.accounts, input.links, a, b);
    var plan, configs := Build(input).value, CidConfigs(input.accounts, made);
    RoutesTheWanted(input.links, input.accounts, input.includeTest, a, b);
    var wanted := Wanted(input.accounts, plan.linkSet);
    var cids := CidsIn(wanted);
    forall i | 0 <= i < |wanted|
      ensures LinkOfRole(wanted[i].role).Some?
      ensures FormRow(plan, configs, cids[i]) == if TrailingSpace(input.dramaName) then Err(Invalid)
          else Ok(ExpectedRow(wanted[i], input.platform, input.dramaName))
    {
      WantedRow(input, made, a, b, wanted[i]);
    }
    RowsAddUp(plan, configs, cids);
    if plan.linkSet != map[] {
      var t :| t in plan.linkSet;
      assert Serves(wanted, t);
    } else {
      NothingWanted(input.accounts);
    }
    if wanted != [] {
      assert FormRow(plan, configs, cids[0]).Ok? <==> !TrailingSpace(input.dramaName);
    }
  }

  lemma LinkSetIsKnown(links: map<string, string>)
    ensures forall t :: t in LinkSet(links) ==> t in LINK_TYPES
  {
  }

  lemma {:induction false} NothingWanted(accounts: seq<PlanAccount>)
    ensures Wanted(accounts, map[]) == []
  {
    if accounts != [] {
      NothingWanted(accounts[1..]);
    }
  }

  /** Entry by entry and in order: a blank one is dropped, any other is kept without the white space around it. */
  lemma {:induction false} TrimmedEntryByEntry(x: seq<string>, y: seq<string>, entry: string)
    ensures Trimmed(x + y) == Trimmed(x) + Trimmed(y)
    ensures Trimmed([entry]) == if Strip(entry) == "" then [] else [Strip(entry)]
  {
    if x == [] {
      assert x + y == y;
    } else {
      assert (x + y)[0] == x[0] && (x + y)[1..] == x[1..] + y;
      TrimmedEntryByEntry(x[1..], y, entry);
    }
  }

  /** Trimmed, non-blank, and no two alike. */
  ghost predicate Usable(items: seq<string>) {
    Trimmed(items) != [] && Distinct(Trimmed(items))
  }

  /**
   * A plan built from the accounts it needs becomes a form exactly when it has a link, the drama name has no trailing
   * white space, the materials are usable, and there are six usable titles. The form then lists each account of a
   * wanted link once, in order, with its own configuration and its own link's promotion content.
   */
  ghost predicate SubmittedExactly(input: PlanInput, made: Time)
    requires Build(input).Ok?
  {
    var linkSet := LinkSet(input.links);
    var form := BuildForm(Build(input).value, CidConfigs(input.accounts, made));
    var wanted := Wanted(input.accounts, linkSet);
    && (form.Ok? <==>
          && linkSet != map[] && !TrailingSpace(input.dramaName)
          && Usable(input.materialIds) && Usable(input.titlePackages) && |Trimmed(input.titlePackages)| == 6)
    && HaveLinks(wanted) && Distinct(CidsIn(wanted))
    && (form.Ok? ==>
          && form.value.cidRows == ExpectedRows(wanted, input.platform, input.dramaName)
          && form.value.materialIds == Trimmed(input.materialIds)
              && form.value.titlePackages == Trimmed(input.titlePackages)
          && CarriesThePlan(form.value, input))
  }

  predicate HasLink(links: map<string, string>, linkType: string) {
    linkType in links && links[linkType] != ""
  }

  /**
   * The form's own fields: the drama, the three numbers the materials call for, the plan type of the links, and a task
   * name that tells test, paid and free plans apart by text and by marker.
   */
  predicate CarriesThePlan(form: DeliveryForm, input: PlanInput) {
    var paid := HasLink(input.links, "9.9") || HasLink(input.links, "2.9");
    var groups := Calculate(input.materialCount, input.materialRanges);
    && form.dramaName == input.dramaName
    && form.planType == (if paid then Paid else Free)
    && groups.Ok?
    && form.materialGroupCount == groups.value.finalGroupCount
    && form.adLimitPerProject == groups.value.adLimitPerProject
    && form.projectCount == groups.value.projectCount
    && form.taskName ==
      input.platform + "#" + (if input.includeTest then "测试" else if paid then "端付" else "端免")
        + input.dramaName + input.dates.delivery
        + (if input.includeTest then "cbo" else if paid then "ubr" else "bxr")
        + ("-" + input.dates.today + "-" + input.dates.clock + "-1")
  }

  lemma LinksOfThePlan(links: map<string, string>)
    ensures forall t :: t in LINK_TYPES ==> (t in LinkSet(links) <==> HasLink(links, t))
    ensures "IAA" in LINK_TYPES && "9.9" in LINK_TYPES && "2.9" in LINK_TYPES
    ensures forall t :: t in LinkSet(links) ==> t in LINK_TYPES && LinkSet(links)[t] == links[t]
  {
  }

  lemma SuppliedPlansCanBeSubmitted(input: PlanInput, made: Time)
    requires Supplied(input.accounts, input.links) && Build(input).Ok?
    ensures SubmittedExactly(input, made)
  {
    hide Supplied, AccountCids, CidConfigs, LinkSet, FormRows, Wanted, Trimmed, HaveLinks, ExpectedRow, Calculate,
        PromotionName, HasLink;
    RowsOfSupplied(input, made);
    WantedOnce(input);
    LinksOfThePlan(input.links);
  }

  lemma WantedOnce(input: PlanInput)
    requires Supplied(input.accounts, input.links)
    ensures Distinct(CidsIn(Wanted(input.accounts, LinkSet(input.links))))
  {
    hide Provides, Wanted, LinkSet, CidsIn, Distinct;
    var a: nat, b: nat :| Provides(input.accounts, input.links, a, b);
    RoutesTheWanted(input.links, input.accounts, input.includeTest, a, b);
  }

  lemma AllocatedPlansCanBeSubmitted(input: PlanInput, rows: Sheet, made: Time)
    requires Allocated(input, rows) && Build(input).Ok?
    ensures SubmittedExactly(input, made)
  {
    hide Allocated, Supplied, SubmittedExactly, Build;
    AllocatedIsSupplied(input, rows);
    SuppliedPlansCanBeSubmitted(input, made);
  }

  /** When every link present is non-empty, the form misses no allocated account. */
  lemma AllAllocatedAreWanted(input: PlanInput, rows: Sheet)
    requires Allocated(input, rows)
    requires forall t :: t in input.links ==> input.links[t] != ""
    ensures Wanted(input.accounts, LinkSet(input.links)) == input.accounts
  {
    hide Allocate, Wanted, AllOf, LinkSet, Fresh, Kept;
    var a, b := AllocationIsInParts(input.links, input.includeTest, rows);
    var x, y, z := input.accounts[..a], input.accounts[a..b], input.accounts[b..];
    assert x + y + z == input.accounts;
    LinksOfThePlan(input.links);
    WantedIsKept(x, y, z, LinkSet(input.links));
    AllKept(x, y, z, LinkSet(input.links));
  }

  lemma AllKept(x: seq<PlanAccount>, y: seq<PlanAccount>, z: seq<PlanAccount>, linkSet: map<string, string>)
    requires (x != [] ==> "IAA" in linkSet) && (y != [] ==> "9.9" in linkSet) && (z != [] ==> "2.9" in linkSet)
    ensures Kept(x, y, z, linkSet) == x + y + z
  {
  }

  /** A name with a space at its end: the plan passes every check and is refused as a form. */
  lemma TrailingSpaceIsRefusedLate()
    ensures var accounts := [PlanAccount("B1", "c1", false)];
      var input := PlanInput("drama ", "TOMATO", NameDates("d", "t", "c"), map["IAA" := "link"], accounts,
        1, [], false, ["m"], ["1", "2", "3", "4", "5", "6"]);
      && Build(input).Ok?
      && Validate(Build(input).value, CidConfigs(accounts, 0.0), 0.0) == []
      && BuildForm(Build(input).value, CidConfigs(accounts, 0.0)).Err?
  {
    hide Build, Validate, BuildForm, CidConfigs, Wanted, HaveLinks, ExpectedRows, Usable, CarriesThePlan, Trimmed;
    var accounts := [PlanAccount("B1", "c1", false)];
    var input := PlanInput("drama ", "TOMATO", NameDates("d", "t", "c"), map["IAA" := "link"], accounts,
      1, [], false, ["m"], ["1", "2", "3", "4", "5", "6"]);
    assert Provides(accounts, input.links, 1, 1);
    assert "IAA" in LINK_TYPES && "IAA" in LinkSet(input.links);
    SuppliedPlansAreValid(input, 0.0, 0.0);
    SuppliedPlansCanBeSubmitted(input, 0.0);
  }
}
