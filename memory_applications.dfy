/** The in-memory application repository (infrastructure/memory/
    application_repository.go).  The mutex only serialises calls and is not
    modelled; Go's random map iteration order becomes an arbitrary choice of
    the next key. */
module MemoryApplications {
  import opened Wrappers
  import opened DomainTypes
  import opened Model

  /** The applications whose IDs a portfolio's index lists, in index order,
      skipping IDs that are no longer stored. */
  function StoredApplications(ids: seq<ApplicationID>, applications: map<ApplicationID, Application>): (r: seq<Application>)
    ensures |r| <= |ids|
    ensures forall i :: 0 <= i < |r| ==> r[i] in applications.Values
  {
    if ids == [] then []
    else
      var rest := StoredApplications(ids[..|ids| - 1], applications);
      var last := ids[|ids| - 1];
      if last in applications then rest + [applications[last]] else rest
  }

  class ApplicationRepository {
    var applications: map<ApplicationID, Application>
    /** Declared and read by `FindByPortfolioID`, but written by no operation. */
    var portfolios: map<PortfolioID, seq<ApplicationID>>

    /** Every application is stored under its own ID, and the portfolio index
        stays as the constructor made it: empty. */
    ghost predicate Valid()
      reads this
    {
      (forall id :: id in applications ==> applications[id].id == id)
      && portfolios == map[]
    }

    constructor ()
      ensures Valid() && applications == map[]
    {
      applications := map[];
      portfolios := map[];
    }

    /** `Save`: insert or overwrite under the application's ID. */
    method Save(app: Application)
      requires Valid()
      modifies this
      ensures Valid()
      ensures applications == old(applications)[app.id := app]
    {
      applications := applications[app.id := app];
    }

    /** `FindByID`. */
    method FindByID(id: ApplicationID) returns (r: Result<Application>)
      ensures r.Ok? <==> id in applications
      ensures r.Ok? ==> r.value == applications[id]
      ensures r.Err? ==> r.error == NotFound("application not found")
    {
      if id in applications {
        r := Ok(applications[id]);
      } else {
        r := Err(NotFound("application not found"));
      }
    }

    /** `FindByName`: some stored application with that name; which one, when
        several share it, depends on the map's iteration order. */
    method FindByName(name: string) returns (r: Result<Application>)
      requires Valid()
      ensures r.Ok? <==> exists id :: id in applications && applications[id].name == name
      ensures r.Ok? ==> r.value.name == name && r.value.id in applications
                        && applications[r.value.id] == r.value
      ensures r.Err? ==> r.error == NotFound("application not found")
    {
      var keys := applications.Keys;
      while keys != {}
        invariant keys <= applications.Keys
        invariant forall id :: id in applications && id !in keys ==> applications[id].name != name
        decreases keys
      {
        var id :| id in keys;
        if applications[id].name == name {
          return Ok(applications[id]);
        }
        keys := keys - {id};
      }
      r := Err(NotFound("application not found"));
    }

    /** `FindAll`: every stored application exactly once, in some order. */
    method FindAll() returns (apps: seq<Application>)
      requires Valid()
      ensures |apps| == |applications|
      ensures UniqueIDs(apps)
      ensures forall i :: 0 <= i < |apps| ==> apps[i].id in applications && applications[apps[i].id] == apps[i]
      ensures forall id :: id in applications ==> HasID(apps, id)
    {
      var keys := applications.Keys;
      apps := [];
      while keys != {}
        invariant keys <= applications.Keys
        invariant |apps| + |keys| == |applications.Keys|
        invariant UniqueIDs(apps)
        invariant forall i :: 0 <= i < |apps| ==>
                    apps[i].id in applications && applications[apps[i].id] == apps[i] && apps[i].id !in keys
        invariant forall id :: id in applications && id !in keys ==> HasID(apps, id)
        decreases keys
      {
        var id :| id in keys;
        var app := applications[id];
        assert !HasID(apps, id);
        AppendKeepsIDsUnique(apps, app);
        forall id' ensures HasID(apps + [app], id') <==> HasID(apps, id') || id' == id {
          HasIDAppend(apps, app, id');
        }
        apps := apps + [app];
        keys := keys - {id};
      }
      assert |applications.Keys| == |applications|;
    }

    /** `FindByPortfolioID`: the stored members of the portfolio's index entry,
        or nothing when there is no entry. */
    method FindByPortfolioID(portfolioID: PortfolioID) returns (apps: seq<Application>)
      ensures portfolioID !in portfolios ==> apps == []
      ensures portfolioID in portfolios ==> apps == StoredApplications(portfolios[portfolioID], applications)
    {
      if portfolioID !in portfolios {
        return [];
      }
      var ids := portfolios[portfolioID];
      apps := [];
      var i := 0;
      while i < |ids|
        invariant 0 <= i <= |ids|
        invariant apps == StoredApplications(ids[..i], applications)
      {
        assert ids[..i + 1][..i] == ids[..i];
        if ids[i] in applications {
          apps := apps + [applications[ids[i]]];
        }
        i := i + 1;
      }
      assert ids[..i] == ids;
    }

    /** Because nothing ever writes the portfolio index, `FindByPortfolioID`
        finds nothing for any portfolio, whatever has been saved. */
    method FindByPortfolioIDIsAlwaysEmpty(portfolioID: PortfolioID) returns (apps: seq<Application>)
      requires Valid()
      ensures apps == []
    {
      apps := FindByPortfolioID(portfolioID);
    }

    /** `Update`: overwrite an application that is already stored. */
    method Update(app: Application) returns (r: Outcome)
      requires Valid()
      modifies this
      ensures Valid()
      ensures r.Pass? <==> app.id in old(applications)
      ensures r.Pass? ==> applications == old(applications)[app.id := app]
      ensures r.Fail? ==> r == Fail(NotFound("application not found")) && applications == old(applications)
    {
      if app.id !in applications {
        return Fail(NotFound("application not found"));
      }
      applications := applications[app.id := app];
      r := Pass;
    }

    /** `Delete`: remove a stored application. */
    method Delete(id: ApplicationID) returns (r: Outcome)
      requires Valid()
      modifies this
      ensures Valid()
      ensures r.Pass? <==> id in old(applications)
      ensures applications == old(applications) - {id}
      ensures r.Fail? ==> r == Fail(NotFound("application not found"))
    {
      if id !in applications {
        return Fail(NotFound("application not found"));
      }
      applications := applications - {id};
      r := Pass;
    }

    /** `Exists`. */
    method Exists(id: ApplicationID) returns (b: bool)
      ensures b <==> id in applications
    {
      b := id in applications;
    }
  }
}
