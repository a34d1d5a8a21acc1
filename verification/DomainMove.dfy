/** The staged move of the public MCP hostname (`migrate_domain` in
    scripts/deploy_pi_appium_mcp.py): six remote writes forward, up to four back, each of which
    may fail before or after taking effect. Nobody else writes during the move. */
module DomainMove {
  import opened Effects

  datatype Host = Previous | New

  /** Access application, tunnel routes and DNS records as Cloudflare holds them. */
  datatype View = View(domain: Host, destinations: seq<Host>, ingress: seq<Host>, previousDns: bool, newDns: bool)

  /** Every published hostname is routed and access-protected. */
  predicate Protected(v: View) {
    && (v.previousDns ==> Previous in v.destinations && Previous in v.ingress)
    && (v.newDns ==> New in v.destinations && New in v.ingress)
  }

  predicate Distinct(hs: seq<Host>) {
    forall i, j :: 0 <= i < j < |hs| ==> hs[i] != hs[j]
  }

  /** The ownership checks of `domain_snapshot`. */
  predicate Owned(v: View) {
    && v.destinations != [] && Distinct(v.destinations) && v.domain in v.destinations
    && v.ingress != [] && Distinct(v.ingress)
  }

  predicate Complete(v: View) {
    v.domain == New && v.destinations == [New] && v.ingress == [New] && !v.previousDns && v.newDns
  }

  datatype Write =
    | ProtectBoth | RouteBoth | PublishNew | RetirePrevious | RouteNew | ProtectNew
    | WithdrawNew | RestoreAccess | RestoreRoutes | RepublishPrevious

  datatype Check =
    | ReadSnapshot | CurrentAnswers | NewAnswers | ReadFinal | FinalAnswers
    | ReadNewDns | ReadPreviousDns | CurrentAnswersAgain

  /** How every call of one run turns out. */
  datatype Weather = Weather(write: Write -> Outcome, check: Check -> bool)

  datatype Result =
    | Refused
    | Unchanged(ready: bool)
    | Moved
    | Failed(rollbackVerified: bool)

  class Cloud {
    var view: View
    ghost var history: seq<View>  // every state since this object was made

    ghost predicate Valid()
      reads this
    {
      history != [] && history[|history| - 1] == view
    }

    constructor (v: View)
      ensures Valid() && view == v && history == [v]
    {
      view, history := v, [v];
    }

    /** One remote write. */
    method Put(v: View, outcome: Outcome) returns (raised: bool)
      requires Valid()
      modifies this
      ensures Valid() && raised == outcome.Raised()
      ensures view == if outcome.Happened() then v else old(view)
      ensures history == old(history) + [view]
      ensures AllProtected(old(history)) && Protected(view) ==> AllProtected(history)
    {
      if outcome.Happened() {
        view := v;
      }
      history := history + [view];
      raised := outcome.Raised();
    }
  }

  ghost predicate AllProtected(h: seq<View>) {
    forall v :: v in h ==> Protected(v)
  }

  // ----- When each phase succeeds, in terms of its own calls -----

  predicate Returns(w: Weather, x: Write) {
    !w.write(x).Raised()
  }

  predicate PublishWorks(start: View, w: Weather) {
    && Returns(w, ProtectBoth) && Returns(w, RouteBoth) && (start.newDns || Returns(w, PublishNew))
    && w.check(NewAnswers)
  }

  predicate RetireWorks(start: View, w: Weather) {
    && (!start.previousDns || Returns(w, RetirePrevious)) && Returns(w, RouteNew) && Returns(w, ProtectNew)
    && w.check(ReadFinal) && w.check(FinalAnswers)
  }

  /** Whether the new record exists, and the previous one is gone, when the forward steps stop. */
  predicate NewPublished(start: View, w: Weather) {
    start.newDns || (Returns(w, ProtectBoth) && Returns(w, RouteBoth) && w.write(PublishNew).Happened())
  }

  predicate PreviousRetired(start: View, w: Weather) {
    start.previousDns && PublishWorks(start, w) && w.write(RetirePrevious).Happened()
  }

  /** The calls the compensation makes on a host in which the new record exists or not, and the
      previous one is gone or not. */
  predicate BackWorks(start: View, w: Weather, published: bool, retired: bool) {
    && (start.newDns || (w.check(ReadNewDns) && (published ==> Returns(w, WithdrawNew))))
    && Returns(w, RestoreAccess) && Returns(w, RestoreRoutes)
    && (start.previousDns ==> w.check(ReadPreviousDns) && (retired ==> Returns(w, RepublishPrevious)))
    && w.check(CurrentAnswersAgain)
  }

  /** What an interrupted move can have left behind. */
  predicate Midway(start: View, v: View) {
    && (start.newDns ==> v.newDns)
    && (!start.previousDns ==> !v.previousDns)
  }

  /** Protect both names, route both, publish the new one and probe it. */
  method Publish(cloud: Cloud, start: View, w: Weather) returns (ok: bool)
    requires cloud.Valid() && cloud.view == start
    modifies cloud
    ensures cloud.Valid() && Midway(start, cloud.view)
    ensures AllProtected(old(cloud.history)) ==> AllProtected(cloud.history)
    ensures ok ==> cloud.view == View(Previous, [Previous, New], [Previous, New], start.previousDns, true)
    ensures ok <==> PublishWorks(start, w)
    ensures cloud.view.newDns == NewPublished(start, w) && cloud.view.previousDns == start.previousDns
  {
    ok := false;
    assert AllProtected(cloud.history) ==> Protected(start) by { assert start in cloud.history; }
    var raised := cloud.Put(cloud.view.(domain := Previous, destinations := [Previous, New]), w.write(ProtectBoth));
    if raised { return; }
    raised := cloud.Put(cloud.view.(ingress := [Previous, New]), w.write(RouteBoth));
    if raised { return; }
    if !start.newDns {
      raised := cloud.Put(cloud.view.(newDns := true), w.write(PublishNew));
      if raised { return; }
    }
    ok := w.check(NewAnswers);
  }

  /** Withdraw the previous name: first its record, then its route, then its protection. */
  method Retire(cloud: Cloud, start: View, w: Weather) returns (ok: bool)
    requires cloud.Valid() && cloud.view == View(Previous, [Previous, New], [Previous, New], start.previousDns, true)
    modifies cloud
    ensures cloud.Valid() && Midway(start, cloud.view)
    ensures AllProtected(old(cloud.history)) ==> AllProtected(cloud.history)
    ensures ok ==> Complete(cloud.view)
    ensures ok <==> RetireWorks(start, w)
    ensures cloud.view.newDns && cloud.view.previousDns == (start.previousDns && !w.write(RetirePrevious).Happened())
  {
    ok := false;
    var raised;
    if start.previousDns {
      raised := cloud.Put(cloud.view.(previousDns := false), w.write(RetirePrevious));
      if raised { return; }
    }
    raised := cloud.Put(cloud.view.(ingress := [New]), w.write(RouteNew));
    if raised { return; }
    raised := cloud.Put(cloud.view.(domain := New, destinations := [New]), w.write(ProtectNew));
    if raised { return; }
    ok := w.check(ReadFinal) && Complete(cloud.view) && w.check(FinalAnswers);
  }

  /** The compensation; `true` only if every step and the final probe succeeded. */
  method Back(cloud: Cloud, start: View, w: Weather) returns (restored: bool)
    requires cloud.Valid() && Owned(start) && Midway(start, cloud.view)
    modifies cloud
    ensures cloud.Valid()
    ensures Protected(start) && AllProtected(old(cloud.history)) ==> AllProtected(cloud.history)
    ensures restored ==> cloud.view == start.(domain := start.destinations[0])
    ensures old(cloud.view.previousDns) ==> cloud.view.previousDns
    ensures restored <==> BackWorks(start, w, old(cloud.view.newDns), !old(cloud.view.previousDns))
  {
    restored := false;
    var raised;
    assert AllProtected(cloud.history) ==> Protected(cloud.view) by { assert cloud.view in cloud.history; }
    if !start.newDns {
      if !w.check(ReadNewDns) { return; }
      if cloud.view.newDns {
        raised := cloud.Put(cloud.view.(newDns := false), w.write(WithdrawNew));
        if raised { return; }
      }
    }
    var access := cloud.view.(domain := start.destinations[0], destinations := start.destinations);
    raised := cloud.Put(access, w.write(RestoreAccess));
    if raised { return; }
    raised := cloud.Put(cloud.view.(ingress := start.ingress), w.write(RestoreRoutes));
    if raised { return; }
    if start.previousDns {
      if !w.check(ReadPreviousDns) { return; }
      if !cloud.view.previousDns {
        raised := cloud.Put(cloud.view.(previousDns := true), w.write(RepublishPrevious));
        if raised { return; }
      }
    }
    restored := w.check(CurrentAnswersAgain);
  }

  /** `migrate_domain`. If every published hostname was routed and protected at the start, that
      stays true after every single write, forward and back; and a rollback that is reported as
      verified leaves destinations, routes and DNS exactly as they were. */
  method MigrateDomain(cloud: Cloud, apply: bool, w: Weather) returns (r: Result)
    requires cloud.Valid()
    modifies cloud
    ensures cloud.Valid()
    ensures AllProtected(old(cloud.history)) ==> AllProtected(cloud.history)
    ensures r.Moved? ==> Complete(cloud.view)
    ensures r.Refused? || r.Unchanged? ==> cloud.view == old(cloud.view)
    ensures r.Refused? <==> !w.check(ReadSnapshot) || !Owned(old(cloud.view)) || !w.check(CurrentAnswers)
    ensures r.Unchanged? ==> (!apply || r.ready) && (r.ready <==> Complete(cloud.view))
    ensures r.Unchanged? <==> !r.Refused? && (!apply || Complete(old(cloud.view)))
    ensures r.Moved? <==>
              !r.Refused? && !r.Unchanged? && PublishWorks(old(cloud.view), w) && RetireWorks(old(cloud.view), w)
    ensures r.Moved? ==> w.check(CurrentAnswers) && w.check(NewAnswers) && w.check(ReadFinal) && w.check(FinalAnswers)
    ensures old(cloud.view.previousDns) && !cloud.view.previousDns ==> w.check(NewAnswers)
    ensures r.Failed? && r.rollbackVerified ==> w.check(CurrentAnswersAgain)
    ensures r.Failed? ==>
              var start := old(cloud.view);
              r.rollbackVerified <==> BackWorks(start, w, NewPublished(start, w), PreviousRetired(start, w))
    ensures r.Failed? && r.rollbackVerified ==>
              && cloud.view.destinations == old(cloud.view.destinations)
              && cloud.view.ingress == old(cloud.view.ingress)
              && cloud.view.previousDns == old(cloud.view.previousDns) && cloud.view.newDns == old(cloud.view.newDns)
    // The primary domain is rebuilt from the first destination, so it alone may differ.
    ensures r.Failed? && r.rollbackVerified ==>
              && old(cloud.view).destinations != []
              && (cloud.view == old(cloud.view) <==> old(cloud.view).domain == old(cloud.view).destinations[0])
  {
    var start := cloud.view;
    if !w.check(ReadSnapshot) || !Owned(start) || !w.check(CurrentAnswers) { return Refused; }
    if !apply || Complete(start) { return Unchanged(Complete(start)); }
    var ok := Publish(cloud, start, w);
    if ok {
      ok := Retire(cloud, start, w);
      if ok { return Moved; }
    }
    assert AllProtected(old(cloud.history)) ==> Protected(start) by { assert start in old(cloud.history); }
    var restored := Back(cloud, start, w);
    r := Failed(restored);
  }

  /** The primary domain can change: it is the second destination, the new name does not answer,
      and the verified rollback leaves the first destination in its place. */
  method PrimaryDomainChanges() returns (before: View, after: View, r: Result)
    ensures Owned(before) && Protected(before) && before.domain == Previous
    ensures r == Failed(true) && after == before.(domain := New)
  {
    before := View(Previous, [New, Previous], [Previous, New], true, false);
    var cloud := new Cloud(before);
    r := MigrateDomain(cloud, true, Weather(_ => Done, c => c != NewAnswers));
    after := cloud.view;
  }
}
