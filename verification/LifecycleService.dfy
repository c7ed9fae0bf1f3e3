/** A service's lifecycle as the proxy service runs it, with nothing else running. */
module LifecycleService {
  import opened Schema
  import opened Calls
  import opened Store
  import opened Repositories
  import Q = Repository
  import E = Engine
  import Sweeps

  /** The row as it is with another status. */
  function WithStatus(t: Tables, id: int, status: ServiceStatus): Tables
    requires HasService(t, id)
  {
    t[ServiceAt(id) := ServiceRow(ServiceIn(t, id).(status := status))]
  }

  class LifecycleManager {
    const db: Database
    const proxies: ProxyServiceRepository
    const panels: XUIPanelRepository

    constructor (db: Database)
      ensures Valid() && this.db == db
    {
      this.db := db;
      proxies := new ProxyServiceRepository(db);
      panels := new XUIPanelRepository(db);
    }

    ghost predicate Valid() {
      proxies.db == db && panels.db == db
    }

    /** `answered` is the panel call's success, between the insert and the status update. The
        update's error is ignored, so the row may keep the status it was inserted with; it does
        too when the insert took effect unheard, and the panel is not called. */
    method Provision(vendorId: int, userId: int, orderId: Option<int>, protocol: string, trafficGb: int, days: int,
                     answered: bool)
      returns (r: Fetch<int>, ghost inserted: bool, ghost updated: bool)
      requires Valid()
      modifies db`rows, db`seqs, db`mishaps
      ensures r.Found? ==> inserted && answered
      ensures r.Err? && inserted && answered ==> !updated
      ensures r.Found? ==> r.value == old(db.seqs.service)
      ensures r.Err? ==> r.error == Fault || (r.error == NoRows && !HasActivePanel(old(db.rows), vendorId))
      ensures db.mishaps == old(db.mishaps) ==>
                && inserted == updated == HasActivePanel(old(db.rows), vendorId)
                && r == if !HasActivePanel(old(db.rows), vendorId) then Err(NoRows)
                        else if answered then Found(old(db.seqs.service))
                        else Err(Fault)
      ensures db.seqs == old(db.seqs) || db.seqs == old(db.seqs).(service := old(db.seqs.service) + 1)
      ensures inserted ==> db.seqs != old(db.seqs)
      ensures !HasActivePanel(old(db.rows), vendorId) ==> !inserted
      ensures !inserted ==> db.rows == old(db.rows)
      ensures inserted ==>
                var status := if !updated then Provisioning else if answered then Active else ProvisionFailed;
                var expires := Some(db.clock + days * 86_400);
                var row := Service(vendorId, userId, orderId, protocol, status, expires, trafficGb, days);
                db.rows == old(db.rows)[ServiceAt(old(db.seqs.service)) := ServiceRow(row)]
    {
      inserted, updated := false, false;
      var panel := panels.FirstActive(vendorId);
      if panel.Err? {
        return Err(panel.error), inserted, updated;
      }
      var expires := Some(db.clock + days * Q.DAY);
      var row := Service(vendorId, userId, orderId, protocol, Provisioning, expires, trafficGb, days);
      var tx := new Tx(db);
      var id := proxies.CreateTx(tx, row);
      if id.Err? {
        tx.Rollback();
        return id, inserted, updated;
      }
      var err;
      err, inserted := tx.Commit();
      if err.Some? {
        tx.Rollback();
        return Err(err.value), inserted, updated;
      }
      err, updated := proxies.UpdateStatus(vendorId, id.value, if answered then Active else ProvisionFailed);
      return if answered then id else Err(Fault), inserted, updated;
    }

    /** Any service that is not suspended may be suspended. */
    method Suspend(vendorId: int, serviceId: int) returns (err: Option<Error>, ghost took: bool)
      requires Valid()
      modifies db`rows, db`mishaps
      ensures db.mishaps == old(db.mishaps) + Count(err == Some(Fault))
      ensures err.None? ==> took
      ensures var t := old(db.rows);
              var own := HasService(t, serviceId) && ServiceIn(t, serviceId).vendorId == vendorId;
              && (err != Some(Fault) ==>
                    err == if !own then Some(NoRows)
                           else if ServiceIn(t, serviceId).status == Suspended then Some(WrongStatus)
                           else None)
              && (took ==> own && !(ServiceIn(t, serviceId).status == Suspended))
              && db.rows == if took then WithStatus(t, serviceId, Suspended) else t
    {
      var row := proxies.ById(vendorId, serviceId);
      if row.Err? {
        return Some(row.error), false;
      }
      if row.value.status == Suspended {
        return Some(WrongStatus), false;
      }
      err, took := proxies.UpdateStatus(vendorId, serviceId, Suspended);
    }

    /** Only a suspended service may be resumed. */
    method Resume(vendorId: int, serviceId: int) returns (err: Option<Error>, ghost took: bool)
      requires Valid()
      modifies db`rows, db`mishaps
      ensures db.mishaps == old(db.mishaps) + Count(err == Some(Fault))
      ensures err.None? ==> took
      ensures var t := old(db.rows);
              var own := HasService(t, serviceId) && ServiceIn(t, serviceId).vendorId == vendorId;
              && (err != Some(Fault) ==>
                    err == if !own then Some(NoRows)
                           else if ServiceIn(t, serviceId).status != Suspended then Some(WrongStatus)
                           else None)
              && (took ==> own && !(ServiceIn(t, serviceId).status != Suspended))
              && db.rows == if took then WithStatus(t, serviceId, Active) else t
    {
      var row := proxies.ById(vendorId, serviceId);
      if row.Err? {
        return Some(row.error), false;
      }
      if row.value.status != Suspended {
        return Some(WrongStatus), false;
      }
      err, took := proxies.UpdateStatus(vendorId, serviceId, Active);
    }

    /** `marked` is the count the job logs; on an error it is absent. */
    method RunExpiryJob() returns (marked: Option<int>, ghost took: bool)
      requires Valid()
      modifies db`rows, db`mishaps
      ensures db.mishaps == old(db.mishaps) + Count(marked.None?)
      ensures marked.Some? ==> took && marked.value == |Sweeps.Changed(old(db.rows), db.rows)|
      ensures took ==> Sweeps.NoneDue(db.rows, db.clock)
      ensures db.rows == if took then old(db.rows) + E.SweepWrite(old(db.rows), db.clock) else old(db.rows)
    {
      ghost var before := E.INITIAL.(db := db.rows, clock := db.clock);
      Sweeps.SweepSettles(before, db.clock, E.SweepExpired(before, db.clock).value, db.clock);
      assert |E.SweepWrite(before.db, db.clock)| == |E.SweepWrite(before.db, db.clock).Keys|;
      var n;
      n, took := proxies.MarkExpired();
      if n.Err? {
        return None, took;
      }
      return Some(n.value), took;
    }
  }
}
