/** The in-memory portfolio repository (infrastructure/memory/
    portfolio_repository.go): portfolios by ID plus an owner index that
    `Save` appends to on every call. */
module MemoryPortfolios {
  import opened Wrappers
  import opened DomainTypes
  import opened Model

  /** The stored portfolios whose IDs an owner's index entry lists, in index
      order, skipping IDs no longer stored and repeating repeated IDs. */
  function StoredPortfolios(ids: seq<PortfolioID>, portfolios: map<PortfolioID, ApplicationPortfolio>)
    : (r: seq<ApplicationPortfolio>)
    ensures |r| <= |ids|
    ensures forall i :: 0 <= i < |r| ==> r[i] in portfolios.Values
  {
    if ids == [] then []
    else
      var rest := StoredPortfolios(ids[..|ids| - 1], portfolios);
      var last := ids[|ids| - 1];
      if last in portfolios then rest + [portfolios[last]] else rest
  }

  /** The sequence without its first occurrence of `x`. */
  function RemoveFirst(s: seq<PortfolioID>, x: PortfolioID): (r: seq<PortfolioID>)
    ensures x in s ==> |r| == |s| - 1 && multiset(r) == multiset(s) - multiset{x}
    ensures x !in s ==> r == s
  {
    if s == [] then []
    else if s[0] == x then
      assert s == [s[0]] + s[1..];
      s[1..]
    else
      assert s == [s[0]] + s[1..];
      [s[0]] + RemoveFirst(s[1..], x)
  }

  /** Cutting out position `i`, where the first occurrence is, is `RemoveFirst`. */
  lemma {:induction false} RemoveFirstAt(s: seq<PortfolioID>, x: PortfolioID, i: nat)
    requires i < |s| && s[i] == x && x !in s[..i]
    ensures RemoveFirst(s, x) == s[..i] + s[i + 1..]
    decreases i
  {
    if i > 0 {
      assert s[1..][..i - 1] == s[1..i];
      assert x !in s[1..][..i - 1] by { assert s[..i] == [s[0]] + s[1..i]; }
      RemoveFirstAt(s[1..], x, i - 1);
      assert s[..i] == [s[0]] + s[1..][..i - 1];
      assert s[1..][i..] == s[i + 1..];
    }
  }

  /** Saving the same portfolio twice lists it twice under its owner. */
  lemma RepeatedSaveListsTwice(p: ApplicationPortfolio)
    ensures StoredPortfolios([p.id, p.id], map[p.id := p]) == [p, p]
  {
    assert [p.id, p.id][..1] == [p.id];
    assert [p.id][..0] == [];
  }

  class PortfolioRepository {
    var portfolios: map<PortfolioID, ApplicationPortfolio>
    var byOwner: map<string, seq<PortfolioID>>

    /** Every portfolio is stored under its own ID. */
    ghost predicate Valid()
      reads this
    {
      forall id :: id in portfolios ==> portfolios[id].id == id
    }

    constructor ()
      ensures Valid() && portfolios == map[] && byOwner == map[]
    {
      portfolios := map[];
      byOwner := map[];
    }

    /** The owner's index entry, empty when there is none. */
    function OwnerIndex(owner: string): seq<PortfolioID>
      reads this
    {
      if owner in byOwner then byOwner[owner] else []
    }

    /** `Save`: store the portfolio and append its ID to its owner's entry,
        even when the entry already lists it. */
    method Save(p: ApplicationPortfolio)
      requires Valid()
      modifies this
      ensures Valid()
      ensures portfolios == old(portfolios)[p.id := p]
      ensures byOwner == old(byOwner)[p.owner := old(OwnerIndex(p.owner)) + [p.id]]
    {
      portfolios := portfolios[p.id := p];
      byOwner := byOwner[p.owner := OwnerIndex(p.owner) + [p.id]];
    }

    /** `FindByID`. */
    method FindByID(id: PortfolioID) returns (r: Result<ApplicationPortfolio>)
      ensures r.Ok? <==> id in portfolios
      ensures r.Ok? ==> r.value == portfolios[id]
      ensures r.Err? ==> r.error == NotFound("portfolio not found")
    {
      if id in portfolios {
        r := Ok(portfolios[id]);
      } else {
        r := Err(NotFound("portfolio not found"));
      }
    }

    /** `FindByOwner`: the stored portfolios the owner's index entry lists. */
    method FindByOwner(owner: string) returns (ps: seq<ApplicationPortfolio>)
      ensures ps == StoredPortfolios(OwnerIndex(owner), portfolios)
    {
      if owner !in byOwner {
        return [];
      }
      var ids := byOwner[owner];
      ps := [];
      var i := 0;
      while i < |ids|
        invariant 0 <= i <= |ids|
        invariant ps == StoredPortfolios(ids[..i], portfolios)
      {
        assert ids[..i + 1][..i] == ids[..i];
        if ids[i] in portfolios {
          ps := ps + [portfolios[ids[i]]];
        }
        i := i + 1;
      }
      assert ids[..i] == ids;
    }

    /** `FindAll`: every stored portfolio exactly once, in some order. */
    method FindAll() returns (ps: seq<ApplicationPortfolio>)
      requires Valid()
      ensures |ps| == |portfolios|
      ensures forall i, j :: 0 <= i < j < |ps| ==> ps[i].id != ps[j].id
      ensures forall i :: 0 <= i < |ps| ==> ps[i].id in portfolios && portfolios[ps[i].id] == ps[i]
      ensures forall id :: id in portfolios ==> exists i :: 0 <= i < |ps| && ps[i].id == id
    {
      var keys := portfolios.Keys;
      ps := [];
      while keys != {}
        invariant keys <= portfolios.Keys
        invariant |ps| + |keys| == |portfolios.Keys|
        invariant forall i, j :: 0 <= i < j < |ps| ==> ps[i].id != ps[j].id
        invariant forall i :: 0 <= i < |ps| ==>
                    ps[i].id in portfolios && portfolios[ps[i].id] == ps[i] && ps[i].id !in keys
        invariant forall id :: id in portfolios && id !in keys ==> exists i :: 0 <= i < |ps| && ps[i].id == id
        decreases keys
      {
        var id :| id in keys;
        var p := portfolios[id];
        ghost var before := ps;
        ps := ps + [p];
        assert ps[|before|].id == id;
        assert forall i :: 0 <= i < |before| ==> ps[i] == before[i];
        keys := keys - {id};
      }
      assert |portfolios.Keys| == |portfolios|;
    }

    /** `Update`: overwrite a stored portfolio; the owner index is left as it is. */
    method Update(p: ApplicationPortfolio) returns (r: Outcome)
      requires Valid()
      modifies this
      ensures Valid()
      ensures r.Pass? <==> p.id in old(portfolios)
      ensures r.Pass? ==> portfolios == old(portfolios)[p.id := p]
      ensures r.Fail? ==> r == Fail(NotFound("portfolio not found")) && portfolios == old(portfolios)
      ensures byOwner == old(byOwner)
    {
      if p.id !in portfolios {
        return Fail(NotFound("portfolio not found"));
      }
      portfolios := portfolios[p.id := p];
      r := Pass;
    }

    /** `Delete`: remove the portfolio and the first occurrence of its ID in
        the index entry of the owner it was stored with. */
    method Delete(id: PortfolioID) returns (r: Outcome)
      requires Valid()
      modifies this
      ensures Valid()
      ensures r.Pass? <==> id in old(portfolios)
      ensures r.Fail? ==> r == Fail(NotFound("portfolio not found"))
                          && portfolios == old(portfolios) && byOwner == old(byOwner)
      ensures r.Pass? ==>
                var owner := old(portfolios)[id].owner;
                && portfolios == old(portfolios) - {id}
                && (owner in old(byOwner) ==> byOwner == old(byOwner)[owner := RemoveFirst(old(byOwner)[owner], id)])
                && (owner !in old(byOwner) ==> byOwner == old(byOwner))
    {
      if id !in portfolios {
        return Fail(NotFound("portfolio not found"));
      }
      var owner := portfolios[id].owner;
      portfolios := portfolios - {id};
      r := Pass;
      if owner !in byOwner {
        return;
      }
      var ids := byOwner[owner];
      var i := 0;
      while i < |ids|
        invariant 0 <= i <= |ids|
        invariant id !in ids[..i]
        invariant byOwner == old(byOwner) && portfolios == old(portfolios) - {id}
      {
        if ids[i] == id {
          RemoveFirstAt(ids, id, i);
          byOwner := byOwner[owner := ids[..i] + ids[i + 1..]];
          return;
        }
        assert ids[..i + 1] == ids[..i] + [ids[i]];
        i := i + 1;
      }
      assert ids[..i] == ids;
      assert byOwner[owner := RemoveFirst(ids, id)] == byOwner;
    }

    /** `Exists`. */
    method Exists(id: PortfolioID) returns (b: bool)
      ensures b <==> id in portfolios
    {
      b := id in portfolios;
    }

    /** `AddApplication`: append a placeholder application that carries only
        the ID (every other field at its zero value). */
    method AddApplication(portfolioID: PortfolioID, appID: ApplicationID) returns (r: Outcome)
      requires Valid()
      modifies this
      ensures Valid()
      ensures portfolioID !in old(portfolios) ==> r == Fail(NotFound("portfolio not found"))
      ensures portfolioID in old(portfolios) && HasID(old(portfolios)[portfolioID].applications, appID) ==>
                r == Fail(AlreadyExists("application already in portfolio"))
      ensures r.Pass? <==> portfolioID in old(portfolios) && !HasID(old(portfolios)[portfolioID].applications, appID)
      ensures r.Pass? ==>
                var p := old(portfolios)[portfolioID];
                portfolios == old(portfolios)[portfolioID := p.(applications := p.applications + [PlaceholderApplication(appID)])]
      ensures r.Fail? ==> portfolios == old(portfolios)
      ensures byOwner == old(byOwner)
    {
      if portfolioID !in portfolios {
        return Fail(NotFound("portfolio not found"));
      }
      var p := portfolios[portfolioID];
      var i := 0;
      while i < |p.applications|
        invariant 0 <= i <= |p.applications|
        invariant forall j :: 0 <= j < i ==> p.applications[j].id != appID
      {
        if p.applications[i].id == appID {
          return Fail(AlreadyExists("application already in portfolio"));
        }
        i := i + 1;
      }
      portfolios := portfolios[portfolioID := p.(applications := p.applications + [PlaceholderApplication(appID)])];
      r := Pass;
    }

    /** `RemoveApplication`: cut out the first member with the ID. */
    method RemoveApplication(portfolioID: PortfolioID, appID: ApplicationID) returns (r: Outcome)
      requires Valid()
      modifies this
      ensures Valid()
      ensures portfolioID !in old(portfolios) ==> r == Fail(NotFound("portfolio not found"))
      ensures portfolioID in old(portfolios) && !HasID(old(portfolios)[portfolioID].applications, appID) ==>
                r == Fail(NotFound("application not found in portfolio"))
      ensures r.Pass? <==> portfolioID in old(portfolios) && HasID(old(portfolios)[portfolioID].applications, appID)
      ensures r.Pass? ==>
                var apps := old(portfolios)[portfolioID].applications;
                portfolios == old(portfolios)[portfolioID :=
                  old(portfolios)[portfolioID].(applications := RemoveAt(apps, IndexOfID(apps, appID)))]
      ensures r.Fail? ==> portfolios == old(portfolios)
      ensures byOwner == old(byOwner)
    {
      if portfolioID !in portfolios {
        return Fail(NotFound("portfolio not found"));
      }
      var p := portfolios[portfolioID];
      var i := 0;
      while i < |p.applications|
        invariant 0 <= i <= |p.applications|
        invariant forall j :: 0 <= j < i ==> p.applications[j].id != appID
      {
        if p.applications[i].id == appID {
          portfolios := portfolios[portfolioID :=
            p.(applications := p.applications[..i] + p.applications[i + 1..])];
          return Pass;
        }
        i := i + 1;
      }
      r := Fail(NotFound("application not found in portfolio"));
    }
  }
}
