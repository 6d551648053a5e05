/** A node's own channels after any run, read off the actions of the run. */
module ChannelHistory {
  import opened KeyedLists
  import opened RouteTypes
  import opened Rib
  import opened RibTheorems
  import opened Runs

  predicate Creates(a: Action, name: string) { a.LocalRouteCreate? && a.ch.name == name }

  predicate Removes(a: Action, name: string) { a.LocalRouteDelete? && a.name == name }

  predicate Checks(a: Action, name: string) { a.LocalRouteHealthUpdate? && a.name == name }

  /** There is no channel of that name before place `n`: the last to create or delete it deleted it, or none did and there
      was none at the start. */
  ghost predicate AbsentAt(acts: seq<Timed>, n: int, name: string, there: bool)
    requires 0 <= n <= |acts|
  {
    || (exists d :: 0 <= d < n && Removes(acts[d].action, name) && forall j :: d < j < n ==> !Creates(acts[j].action, name))
    || (!there && forall j :: 0 <= j < n ==> !Creates(acts[j].action, name))
  }

  /** The channel is the one created at place `c`, where there was none, and has not been deleted since. */
  ghost predicate CreatedAt(acts: seq<Timed>, c: int, ch: DataChannel, there: bool) {
    && 0 <= c < |acts| && acts[c].action == LocalRouteCreate(ch) && AbsentAt(acts, c, ch.name, there)
    && forall j :: c < j < |acts| ==> !Removes(acts[j].action, ch.name)
  }

  /** `ch` with the health last reported from place `n` on, if any was. */
  ghost predicate Checked(now: DataChannel, ch: DataChannel, acts: seq<Timed>, n: int)
    requires 0 <= n
  {
    || (now == ch && forall j :: n <= j < |acts| ==> !Checks(acts[j].action, ch.name))
    || (exists h :: n <= h && CheckedLast(now, ch, acts, h))
  }

  ghost predicate CheckedLast(now: DataChannel, ch: DataChannel, acts: seq<Timed>, h: int) {
    && 0 <= h < |acts| && Checks(acts[h].action, ch.name) && (forall j :: h < j < |acts| ==> !Checks(acts[j].action, ch.name))
    && now == Reported(ch, acts[h].action)
  }

  function Reported(ch: DataChannel, a: Action): DataChannel
    requires a.LocalRouteHealthUpdate?
  {
    ch.(healthStatus := Some(a.health), responseTimeMs := a.latency, lastChecked := Some(a.checked))
  }

  /** What is found under `name` after the actions, from what was found before them. */
  ghost predicate FoundIs(found: Option<DataChannel>, acts: seq<Timed>, name: string, before: Option<DataChannel>) {
    match found
    case None => AbsentAt(acts, |acts|, name, before.Some?)
    case Some(now) =>
      || (exists c, ch :: CreatedAt(acts, c, ch, before.Some?) && ch.name == name && Checked(now, ch, acts, c + 1))
      || (before.Some? && (forall j :: 0 <= j < |acts| ==> !Removes(acts[j].action, name)) && Checked(now, before.value, acts, 0))
  }

  /** One action on what is found under `name`. */
  function After(a: Action, name: string, found: Option<DataChannel>): Option<DataChannel> {
    if Removes(a, name) then None
    else if Creates(a, name) then if found.Some? then found else Some(a.ch)
    else if Checks(a, name) && found.Some? then Some(Reported(found.value, a))
    else found
  }

  lemma HealthFound(t: RouteTable, a: Action, name: string)
    requires a.LocalRouteHealthUpdate?
    ensures Find(ChannelName, PlanLocalRouteHealthUpdate(a.name, a.health, a.latency, a.checked, t).next.local, name)
            == After(a, name, Find(ChannelName, t.local, name))
  {
    var i := IndexOf(ChannelName, t.local, a.name);
    if i >= 0 {
      var ch := Reported(t.local[i], a);
      FindApply(ChannelName, Updated(ch), t.local, name);
      assert Apply(ChannelName, Updated(ch), t.local) == t.local[i := ch];
      assert PlanLocalRouteHealthUpdate(a.name, a.health, a.latency, a.checked, t).next.local == t.local[i := ch];
    }
  }

  lemma CreateFound(t: RouteTable, ch: DataChannel, name: string)
    ensures Find(ChannelName, PlanLocalRouteCreate(ch, t).next.local, name) == After(LocalRouteCreate(ch), name, Find(ChannelName, t.local, name))
  {
    FindApply(ChannelName, Added(ch), t.local, name);
  }

  lemma DeleteFound(t: RouteTable, gone: string, name: string)
    ensures Find(ChannelName, PlanLocalRouteDelete(gone, t).next.local, name) == After(LocalRouteDelete(gone), name, Find(ChannelName, t.local, name))
  {
    FindWithout(ChannelName, t.local, {gone}, name);
  }

  lemma OthersLeaveChannels(self: string, a: Action, t: RouteTable, clock: int)
    requires !a.LocalRouteCreate? && !a.LocalRouteDelete? && !a.LocalRouteHealthUpdate?
    ensures Planned(self, a, t, clock).next.local == t.local
  {
    if a.InternalProtocolUpdate? {
      UpdatedRoutesAre(self, a.info, a.items, t, clock);
    }
  }

  lemma ChannelFound(self: string, a: Action, t: RouteTable, clock: int, name: string)
    ensures Find(ChannelName, Planned(self, a, t, clock).next.local, name) == After(a, name, Find(ChannelName, t.local, name))
  {
    match a
    case LocalRouteCreate(ch) => CreateFound(t, ch, name);
    case LocalRouteDelete(gone) => DeleteFound(t, gone, name);
    case LocalRouteHealthUpdate(_, _, _, _) => HealthFound(t, a, name);
    case _ => OthersLeaveChannels(self, a, t, clock);
  }

  // -------------------------------------------------------------------------
  // One more action
  // -------------------------------------------------------------------------

  lemma AbsentSnoc(acts: seq<Timed>, x: Timed, n: int, name: string, there: bool)
    requires 0 <= n <= |acts|
    ensures AbsentAt(acts + [x], n, name, there) <==> AbsentAt(acts, n, name, there)
  {
    assert forall j :: 0 <= j < n ==> (acts + [x])[j] == acts[j];
  }

  lemma CheckedSnoc(now: DataChannel, ch: DataChannel, acts: seq<Timed>, n: int, x: Timed)
    requires 0 <= n <= |acts| && Checked(now, ch, acts, n) && !Removes(x.action, ch.name) && now.name == ch.name
    ensures Checked(After(x.action, ch.name, Some(now)).value, ch, acts + [x], n)
  {
    var more := acts + [x];
    assert more[|acts|] == x;
    forall j | n <= j < |acts| ensures Checks(more[j].action, ch.name) == Checks(acts[j].action, ch.name) {
      assert more[j] == acts[j];
    }
    if Checks(x.action, ch.name) {
      assert CheckedLast(Reported(now, x.action), ch, more, |acts|);
    } else if h :| n <= h && CheckedLast(now, ch, acts, h) {
      assert more[h] == acts[h] && CheckedLast(now, ch, more, h);
    }
  }

  lemma CreatedSnoc(acts: seq<Timed>, c: int, ch: DataChannel, there: bool, x: Timed)
    requires CreatedAt(acts, c, ch, there) && !Removes(x.action, ch.name)
    ensures CreatedAt(acts + [x], c, ch, there)
  {
    AbsentSnoc(acts, x, c, ch.name, there);
    assert forall j :: 0 <= j < |acts| ==> (acts + [x])[j] == acts[j];
  }

  lemma FoundSnoc(found: Option<DataChannel>, acts: seq<Timed>, name: string, before: Option<DataChannel>, x: Timed)
    requires FoundIs(found, acts, name, before) && (found.Some? ==> found.value.name == name) && (before.Some? ==> before.value.name == name)
    ensures FoundIs(After(x.action, name, found), acts + [x], name, before)
  {
    var more := acts + [x];
    assert more[|acts|] == x && forall j :: 0 <= j < |acts| ==> more[j] == acts[j];
    if Removes(x.action, name) {
      assert AbsentAt(more, |more|, name, before.Some?);
    } else if found.Some? {
      var now := found.value;
      if c, ch :| CreatedAt(acts, c, ch, before.Some?) && ch.name == name && Checked(now, ch, acts, c + 1) {
        CreatedSnoc(acts, c, ch, before.Some?, x);
        CheckedSnoc(now, ch, acts, c + 1, x);
      } else {
        CheckedSnoc(now, before.value, acts, 0, x);
      }
    } else if Creates(x.action, name) {
      AbsentSnoc(acts, x, |acts|, name, before.Some?);
      assert CreatedAt(more, |acts|, x.action.ch, before.Some?) && Checked(x.action.ch, x.action.ch, more, |acts| + 1);
    } else {
      AbsentSnoc(acts, x, |acts|, name, before.Some?);
    }
  }

  /** After any run: a channel is there exactly when it was created where there was none, or was there at the start, and has
      not been deleted since; it is as created, later creations of its name ignored, with the health last reported. */
  lemma {:induction false} ChannelAfterRun(self: string, acts: seq<Timed>, t: RouteTable, name: string)
    ensures FoundIs(Find(ChannelName, Replay(self, acts, t).local, name), acts, name, Find(ChannelName, t.local, name))
    decreases |acts|
  {
    if |acts| > 0 {
      var before, x := acts[..|acts| - 1], acts[|acts| - 1];
      assert acts == before + [x] && [x][1..] == [];
      ReplayAppend(self, before, [x], t);
      ChannelAfterRun(self, before, t, name);
      ChannelFound(self, x.action, Replay(self, before, t), x.clock, name);
      FoundSnoc(Find(ChannelName, Replay(self, before, t).local, name), before, name, Find(ChannelName, t.local, name), x);
    }
  }
}
