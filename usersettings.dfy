/** The user's settings object: the cost and impact parameters, the policy
    chosen per journal, and a three-level memo cache of computed values keyed
    by journal, policy and function name. */
module UserSettings {
  import opened JsNumbers

  /** The JavaScript values a cache entry may hold, as far as truthiness tells them apart. */
  datatype JsValue = Undefined | Null | Bool(b: bool) | Num(n: real) | NaN | Str(s: string) | Object(id: nat)

  /** JavaScript truthiness: `false`, `0`, `NaN`, `""`, `null` and `undefined` are falsy. */
  predicate Truthy(v: JsValue)
  {
    match v
    case Undefined => false
    case Null => false
    case Bool(b) => b
    case Num(n) => n != 0.0
    case NaN => false
    case Str(s) => s != ""
    case Object(_) => true
  }

  /** `cache[issnl][subrName][fnName]`: every level below the top is an object, always truthy. */
  type Cache = map<string, map<string, map<string, JsValue>>>

  // ---------------------------------------------------------------------------
  // The cache, on values

  /** The value `cache[i][s][f]` holds, `None` where a level or the entry is missing. */
  function Lookup(c: Cache, i: string, s: string, f: string): Option<JsValue>
  {
    if i in c && s in c[i] && f in c[i][s] then Some(c[i][s][f]) else None
  }

  /** What `getCache(i, s, f)` returns: the stored value when it is truthy, a miss otherwise. */
  function Hit(c: Cache, i: string, s: string, f: string): (r: Option<JsValue>)
    ensures r.Some? ==> Truthy(r.value) && Lookup(c, i, s, f) == r
    ensures r.None? <==> Lookup(c, i, s, f).None? || !Truthy(Lookup(c, i, s, f).value)
  {
    if i in c && s in c[i] && f in c[i][s] && Truthy(c[i][s][f]) then Some(c[i][s][f]) else None
  }

  /** The cache after `setCache(i, s, f, v)`: missing levels created, the entry written. */
  function Stored(c: Cache, i: string, s: string, f: string, v: JsValue): Cache
  {
    var level1 := if i in c then c[i] else map[];
    var level2 := if s in level1 then level1[s] else map[];
    c[i := level1[s := level2[f := v]]]
  }

  /** A stored value reads back, and a falsy one reads back as a miss. */
  lemma StoredReadBack(c: Cache, i: string, s: string, f: string, v: JsValue)
    ensures Lookup(Stored(c, i, s, f, v), i, s, f) == Some(v)
    ensures Hit(Stored(c, i, s, f, v), i, s, f) == if Truthy(v) then Some(v) else None
  {
  }

  /** Storing one entry changes no other entry, and keeps every level that existed. */
  lemma StoredFrame(c: Cache, i: string, s: string, f: string, v: JsValue, i': string, s': string, f': string)
    requires (i', s', f') != (i, s, f)
    ensures Lookup(Stored(c, i, s, f, v), i', s', f') == Lookup(c, i', s', f')
    ensures i' in c ==> i' in Stored(c, i, s, f, v)
    ensures i' in c && s' in c[i'] ==> s' in Stored(c, i, s, f, v)[i']
  {
  }

  /** The cache after `clearCacheIssnl(i)`: journal `i` maps to an empty object. */
  function ClearedIssnl(c: Cache, i: string): Cache
  {
    c[i := map[]]
  }

  /** Clearing one journal's entries makes every lookup for it miss and leaves every other journal's alone. */
  lemma ClearedIssnlEffect(c: Cache, i: string, i': string, s: string, f: string)
    ensures Lookup(ClearedIssnl(c, i), i, s, f) == None
    ensures i' != i ==> Lookup(ClearedIssnl(c, i), i', s, f) == Lookup(c, i', s, f)
  {
  }

  // ---------------------------------------------------------------------------
  // The settings list

  /** The settings `getList` offers and `setFromList` writes back (the keys of `displayNames`). */
  datatype Setting = DocDelCostPerUse | IllCostPerUse | HardTurnawayProp | BigDealCostAnnualIncrease
                   | SubrCostAnnualIncrease | BigDealCost | DownloadsPerCitation | DownloadsPerAuthorship

  /** One element of the list `setFromList` receives, its value already parsed. */
  datatype Assignment = Assignment(name: Setting, val: real)

  /** The value setting `s` holds after the assignments of `list`, in order, starting from `v0`. */
  function Applied(list: seq<Assignment>, s: Setting, v0: real): real
  {
    if list == [] then v0 else Applied(list[1..], s, if list[0].name == s then list[0].val else v0)
  }

  /** Applying one more assignment: it wins for its own setting and leaves the others alone. */
  lemma {:induction false} AppliedSnoc(list: seq<Assignment>, a: Assignment, s: Setting, v0: real)
    ensures Applied(list + [a], s, v0) == if a.name == s then a.val else Applied(list, s, v0)
  {
    if list != [] {
      assert (list + [a])[1..] == list[1..] + [a];
      AppliedSnoc(list[1..], a, s, if list[0].name == s then list[0].val else v0);
    }
  }

  /** The last assignment to a setting decides its value; a setting never assigned keeps it. */
  lemma {:induction false} AppliedLast(list: seq<Assignment>, s: Setting, v0: real)
    ensures (forall k :: 0 <= k < |list| ==> list[k].name != s) ==> Applied(list, s, v0) == v0
    ensures list != [] && list[|list| - 1].name == s ==> Applied(list, s, v0) == list[|list| - 1].val
  {
    if list != [] {
      var init := list[..|list| - 1];
      assert list == init + [list[|list| - 1]];
      AppliedSnoc(init, list[|list| - 1], s, v0);
      AppliedLast(init, s, v0);
    }
  }

  // ---------------------------------------------------------------------------
  // The settings object

  class Settings {
    // item-level acquisition
    var docDelCostPerUse: real
    var illCostPerUse: real
    var hardTurnawayProp: real
    // cost: annual increase
    var bigDealCostAnnualIncrease: real
    var subrCostAnnualIncrease: real
    // cost
    var bigDealCost: real
    // impact
    var downloadsPerCitation: real
    var downloadsPerAuthorship: real
    // subscriptions
    var subrs: map<string, string>
    const defaultSubr: string
    var cache: Cache

    /** The current value of one setting. */
    function Get(s: Setting): real
      reads this
    {
      match s
      case DocDelCostPerUse => docDelCostPerUse
      case IllCostPerUse => illCostPerUse
      case HardTurnawayProp => hardTurnawayProp
      case BigDealCostAnnualIncrease => bigDealCostAnnualIncrease
      case SubrCostAnnualIncrease => subrCostAnnualIncrease
      case BigDealCost => bigDealCost
      case DownloadsPerCitation => downloadsPerCitation
      case DownloadsPerAuthorship => downloadsPerAuthorship
    }

    /** `new UserSettings()`: the defaults, no policy chosen, an empty cache. */
    constructor ()
      ensures docDelCostPerUse == 25.0 && illCostPerUse == 5.0 && hardTurnawayProp == 0.5
      ensures bigDealCostAnnualIncrease == 0.05 && subrCostAnnualIncrease == 0.08
      ensures bigDealCost == 2000000.0
      ensures downloadsPerCitation == 0.0 && downloadsPerAuthorship == 0.0
      ensures subrs == map[] && defaultSubr == "ill" && cache == map[]
      ensures forall i, s, f :: GetCache(i, s, f) == None
    {
      docDelCostPerUse, illCostPerUse, hardTurnawayProp := 25.0, 5.0, 0.5;
      bigDealCostAnnualIncrease, subrCostAnnualIncrease := 0.05, 0.08;
      bigDealCost := 2000000.0;
      downloadsPerCitation, downloadsPerAuthorship := 0.0, 0.0;
      subrs, defaultSubr := map[], "ill";
      cache := map[];
    }

    /** `getSubr(issnl)`: the chosen policy, or the default when none (or `""`) was chosen. */
    function GetSubr(issnl: string): (r: string)
      reads this
      ensures issnl in subrs && subrs[issnl] != "" ==> r == subrs[issnl]
      ensures issnl !in subrs || subrs[issnl] == "" ==> r == defaultSubr
    {
      if issnl in subrs && subrs[issnl] != "" then subrs[issnl] else defaultSubr
    }

    /** `setSubr(issnl, subrName)`: records the choice and drops that journal's cached values. */
    method SetSubr(issnl: string, subrName: string)
      modifies this
      ensures subrs == old(subrs)[issnl := subrName]
      ensures cache == ClearedIssnl(old(cache), issnl)
      ensures forall s :: Get(s) == old(Get(s))
      ensures subrName != "" ==> GetSubr(issnl) == subrName
      ensures subrName == "" ==> GetSubr(issnl) == defaultSubr
      ensures forall j :: j != issnl ==> GetSubr(j) == old(GetSubr(j))
      ensures forall s, f :: GetCache(issnl, s, f) == None
      ensures forall j, s, f :: j != issnl ==> GetCache(j, s, f) == old(GetCache(j, s, f))
    {
      subrs := subrs[issnl := subrName];
      ClearCacheIssnl(issnl);
    }

    /** `getCache(issnl, subrName, fnName)` */
    function GetCache(issnl: string, subrName: string, fnName: string): (r: Option<JsValue>)
      reads this
      ensures r.Some? ==> Truthy(r.value)
    {
      Hit(cache, issnl, subrName, fnName)
    }

    /** `setCache(issnl, subrName, fnName, value)` */
    method SetCache(issnl: string, subrName: string, fnName: string, value: JsValue)
      modifies this
      ensures cache == Stored(old(cache), issnl, subrName, fnName, value)
      ensures subrs == old(subrs) && forall s :: Get(s) == old(Get(s))
      ensures GetCache(issnl, subrName, fnName) == if Truthy(value) then Some(value) else None
      ensures forall i, s, f :: (i, s, f) != (issnl, subrName, fnName) ==> GetCache(i, s, f) == old(GetCache(i, s, f))
    {
      StoredReadBack(cache, issnl, subrName, fnName, value);
      forall i, s, f | (i, s, f) != (issnl, subrName, fnName)
        ensures Lookup(Stored(old(cache), issnl, subrName, fnName, value), i, s, f) == Lookup(old(cache), i, s, f)
      {
        StoredFrame(old(cache), issnl, subrName, fnName, value, i, s, f);
      }
      ghost var level1 := if issnl in cache then cache[issnl] else map[];
      ghost var level2 := if subrName in level1 then level1[subrName] else map[];
      if issnl !in cache {
        cache := cache[issnl := map[]];
      }
      assert cache[issnl] == level1;
      if subrName !in cache[issnl] {
        cache := cache[issnl := cache[issnl][subrName := map[]]];
      }
      assert cache[issnl][subrName] == level2;
      assert cache[issnl][subrName := level2[fnName := value]] == level1[subrName := level2[fnName := value]];
      cache := cache[issnl := cache[issnl][subrName := cache[issnl][subrName][fnName := value]]];
      assert cache == old(cache)[issnl := level1[subrName := level2[fnName := value]]];
    }

    /** `clearCacheIssnl(issnl)` */
    method ClearCacheIssnl(issnl: string)
      modifies this
      ensures cache == ClearedIssnl(old(cache), issnl)
      ensures subrs == old(subrs) && forall s :: Get(s) == old(Get(s))
      ensures forall s, f :: GetCache(issnl, s, f) == None
      ensures forall j, s, f :: j != issnl ==> GetCache(j, s, f) == old(GetCache(j, s, f))
    {
      cache := cache[issnl := map[]];
    }

    /** `clearCache()` */
    method ClearCache()
      modifies this
      ensures cache == map[]
      ensures subrs == old(subrs) && forall s :: Get(s) == old(Get(s))
      ensures forall i, s, f :: GetCache(i, s, f) == None
    {
      cache := map[];
    }

    /** `this[name] = val` for one setting. */
    method Set(name: Setting, val: real)
      modifies this
      ensures forall s :: Get(s) == if s == name then val else old(Get(s))
      ensures subrs == old(subrs) && cache == old(cache)
    {
      match name
      case DocDelCostPerUse => docDelCostPerUse := val;
      case IllCostPerUse => illCostPerUse := val;
      case HardTurnawayProp => hardTurnawayProp := val;
      case BigDealCostAnnualIncrease => bigDealCostAnnualIncrease := val;
      case SubrCostAnnualIncrease => subrCostAnnualIncrease := val;
      case BigDealCost => bigDealCost := val;
      case DownloadsPerCitation => downloadsPerCitation := val;
      case DownloadsPerAuthorship => downloadsPerAuthorship := val;
    }

    /** `setFromList(myList)`: empties the cache, then writes the settings in list order. */
    method SetFromList(list: seq<Assignment>)
      modifies this
      ensures cache == map[]
      ensures forall i, s, f :: GetCache(i, s, f) == None
      ensures subrs == old(subrs)
      ensures forall s :: Get(s) == Applied(list, s, old(Get(s)))
    {
      ClearCache();
      for k := 0 to |list|
        invariant cache == map[] && subrs == old(subrs)
        invariant forall s :: Get(s) == Applied(list[..k], s, old(Get(s)))
      {
        label step:
        Set(list[k].name, list[k].val);
        assert list[..k + 1] == list[..k] + [list[k]];
        forall s
          ensures Get(s) == Applied(list[..k + 1], s, old(Get(s)))
        {
          assert old@step(Get(s)) == Applied(list[..k], s, old(Get(s)));
          AppliedSnoc(list[..k], list[k], s, old(Get(s)));
        }
      }
      assert list[..|list|] == list;
    }
  }
}
