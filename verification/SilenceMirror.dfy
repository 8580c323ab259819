/**
 * The mirror as an object beside alertmanager: the reconcile pass as loops
 * over single calls, any of which may find alertmanager unreachable.
 */
module SilenceMirror {
  import opened Wrappers
  import opened Silences
  import opened SilencePass

  datatype Answer<T> = Unreachable | Refused | Done(value: T)

  predicate Live(silences: map<SilenceId, Silence>, id: SilenceId, now: int) {
    id in silences && SilenceActive(silences[id], now)
  }

  /** The alertmanager API; up says which calls get through. */
  class Alertmanager {
    const up: nat -> bool
    var silences: map<SilenceId, Silence>
    var calls: nat

    constructor (up: nat -> bool, silences: map<SilenceId, Silence>)
      ensures this.up == up && this.silences == silences && calls == 0
    {
      this.up, this.silences, calls := up, silences, 0;
    }

    /** A live id is updated in place or re-minted, an id that is gone or expired is refused or re-minted. */
    method PostSilence(existing: Option<SilenceId>, s: Silence, now: int, r: Reply) returns (a: Answer<SilenceId>)
      modifies this
      ensures calls == old(calls) + 1
      ensures a.Unreachable? <==> !up(old(calls))
      ensures a.Refused? <==>
                && up(old(calls))
                && (s.ends <= now || (existing.Some? && !Running(old(silences), existing, now) && r.refusesStale))
      ensures a.Done? ==>
                if Running(old(silences), existing, now) && r.inPlace
                then a.value == existing.value && silences == old(silences)[existing.value := s]
                else
                  && a.value == r.minted
                  && silences == (if Running(old(silences), existing, now)
                                  then old(silences)[existing.value := old(silences)[existing.value].(ends := now)]
                                  else old(silences))[r.minted := s]
      ensures !a.Done? ==> silences == old(silences)
    {
      calls := calls + 1;
      if !up(calls - 1) {
        return Unreachable;
      }
      if !Accepts(s, now) {
        return Refused;
      }
      if existing.Some? {
        if Live(silences, existing.value, now) {
          if r.inPlace {
            silences := silences[existing.value := s];
            return Done(existing.value);
          }
          silences := Expire(silences, existing.value, now);
        } else if r.refusesStale {
          return Refused;
        }
      }
      silences := silences[r.minted := s];
      a := Done(r.minted);
    }

    /** Refused stands for any answer that is not a silence. */
    method GetSilence(id: SilenceId) returns (a: Answer<Silence>)
      modifies this`calls
      ensures calls == old(calls) + 1
      ensures a.Unreachable? <==> !up(old(calls))
      ensures a.Done? <==> up(old(calls)) && id in silences
      ensures a.Done? ==> a.value == silences[id]
    {
      calls := calls + 1;
      a := if !up(calls - 1) then Unreachable else if id in silences then Done(silences[id]) else Refused;
    }

    method ListSilences() returns (a: Answer<map<SilenceId, Silence>>)
      modifies this`calls
      ensures calls == old(calls) + 1
      ensures a == if up(old(calls)) then Done(silences) else Unreachable
    {
      calls := calls + 1;
      a := if up(calls - 1) then Done(silences) else Unreachable;
    }

    method DeleteSilence(id: SilenceId, now: int) returns (a: Answer<()>)
      modifies this
      ensures calls == old(calls) + 1
      ensures a.Unreachable? <==> !up(old(calls))
      ensures silences == if a.Done? && id in old(silences)
                          then old(silences)[id := old(silences)[id].(ends := now)] else old(silences)
      ensures a.Unreachable? || a.Done?
    {
      calls := calls + 1;
      if !up(calls - 1) {
        return Unreachable;
      }
      silences := Expire(silences, id, now);
      a := Done(());
    }
  }

  /** The part of the sweep that has got through. */
  function SweepOf(st: State, now: int, gone: set<SilenceId>): State {
    st.(silences := map id | id in st.silences ::
          if id in gone && Orphan(st, id, now) then st.silences[id].(ends := now) else st.silences[id])
  }

  lemma SweepOfKeeps(st: State, now: int, gone: set<SilenceId>)
    requires Valid(st)
    ensures Valid(SweepOf(st, now, gone)) && OperatorsUntouched(st, SweepOf(st, now, gone))
    ensures st.silences.Keys <= gone ==> SweepOf(st, now, gone) == OrphanSweep(st, now)
    ensures SweepOf(st, now, {}) == st
  {
    if st.silences.Keys <= gone {
      assert SweepOf(st, now, gone).silences == OrphanSweep(st, now).silences;
    }
    assert SweepOf(st, now, {}).silences == st.silences;
  }

  lemma SweepOfNext(st: State, now: int, gone: set<SilenceId>, id: SilenceId)
    requires id in st.silences && id !in gone
    ensures var before := SweepOf(st, now, gone);
            SweepOf(st, now, gone + {id}) ==
              if Orphan(st, id, now) then before.(silences := Expire(before.silences, id, now)) else before
    ensures SweepOf(st, now, gone).mutes == st.mutes
  {
    var before, after := SweepOf(st, now, gone), SweepOf(st, now, gone + {id});
    assert after.silences == if Orphan(st, id, now) then Expire(before.silences, id, now) else before.silences;
  }

  lemma SweepOfIsPlain(st: State, now: int, gone: set<SilenceId>)
    ensures var after := SweepOf(st, now, gone).silences;
            after.Keys == st.silences.Keys
            && forall id :: id in st.silences ==>
                 after[id] ==
                   if id in gone && Stray(st, id, now) then st.silences[id].(ends := now) else st.silences[id]
  {
    hide Orphan, Stray;
    forall id ensures Stray(st, id, now) <==> Orphan(st, id, now) {
      StrayIsOrphan(st, id, now);
    }
  }

  class Mirror {
    const am: Alertmanager
    var mutes: seq<Mute>
    var degraded: bool

    constructor (am: Alertmanager, mutes: seq<Mute>)
      ensures this.am == am && this.mutes == mutes && !degraded
    {
      this.am, this.mutes, degraded := am, mutes, false;
    }

    ghost function View(): State
      reads this, am
    {
      State(am.silences, mutes)
    }

    /** One active mute: create, re-create, re-issue in place, or leave alone. */
    method ReconcileMute(i: nat, now: int, r: Reply) returns (reached: bool)
      requires i < |mutes| && MuteActive(mutes[i], now)
      modifies this`mutes, am
      ensures am.calls >= old(am.calls)
      ensures reached ==> View() == Silences.ReconcileMute(old(View()), i, now, r)
      ensures reached ==> RowLeaves(old(View()), View(), i, now, r)
      ensures !reached ==> View() == old(View()) && exists n :: n >= old(am.calls) && !am.up(n)
    {
      hide RowLeaves;
      RowIsPlain(View(), i, now, r);
      var mute := mutes[i];
      var existing: Option<SilenceId> := None;
      if mute.silence.Some? {
        var view := am.GetSilence(mute.silence.value);
        if view.Unreachable? {
          return false;
        }
        if view.Done? && SilenceActive(view.value, now) {
          if !DriftsEndsAt(mute, view.value, now) {
            return true;
          }
          existing := mute.silence;
        }
      }
      var posted := am.PostSilence(existing, Posted(mute, now), now, r);
      if posted.Done? && Some(posted.value) != mute.silence {
        mutes := mutes[i := mute.(silence := Some(posted.value))];
      }
      reached := !posted.Unreachable?;
    }

    /**
     * After an upsert of row i: POST with the stored id, and once more without it when a responding
     * alertmanager refuses it.
     */
    method MuteUpserted(i: nat, now: int, r: Reply) returns (reached: bool)
      requires i < |mutes|
      modifies this`mutes, am
      ensures reached ==> View() == Post(old(View()), i, now, r)
      ensures reached ==> PostLeaves(old(View()), View(), i, now, r)
      ensures !reached ==> View() == old(View()) && exists n :: n >= old(am.calls) && !am.up(n)
    {
      hide PostLeaves;
      PostIsPlain(View(), i, now, r);
      var mute := mutes[i];
      var posted := am.PostSilence(mute.silence, Posted(mute, now), now, r);
      if posted.Refused? && mute.silence.Some? {
        posted := am.PostSilence(None, Posted(mute, now), now, r);
      }
      if posted.Done? && Some(posted.value) != mute.silence {
        mutes := mutes[i := mute.(silence := Some(posted.value))];
      }
      reached := !posted.Unreachable?;
    }

    /** After row i is gone: its silence goes too, or is left to the sweep. */
    method MuteDeleted(i: nat, now: int)
      requires i < |mutes|
      modifies this`mutes, am
      ensures mutes == old(mutes)[..i] + old(mutes)[i + 1..]
      ensures var id := old(mutes)[i].silence;
              am.silences ==
                if id.Some? && id.value in old(am.silences) && am.up(old(am.calls))
                then old(am.silences)[id.value := old(am.silences)[id.value].(ends := now)] else old(am.silences)
    {
      var mute := mutes[i];
      mutes := mutes[..i] + mutes[i + 1..];
      if mute.silence.Some? {
        var _ := am.DeleteSilence(mute.silence.value, now);
      }
    }

    method OrphanSweep(now: int) returns (reached: bool)
      requires Valid(View())
      modifies am
      ensures am.calls >= old(am.calls)
      ensures Valid(View()) && OperatorsUntouched(old(View()), View())
      ensures reached ==> View() == Silences.OrphanSweep(old(View()), now)
      ensures am.silences.Keys == old(am.silences.Keys)
      ensures forall id :: id in am.silences ==>
                if Stray(old(View()), id, now)
                then am.silences[id] == old(am.silences[id]).(ends := now)
                     || (!reached && am.silences[id] == old(am.silences[id]))
                else am.silences[id] == old(am.silences[id])
      ensures !reached ==> exists n :: n >= old(am.calls) && !am.up(n)
    {
      hide Valid, Orphan, Stray, OperatorsUntouched, SweepOf;
      ghost var before := View();
      SweepOfKeeps(before, now, {});
      SweepOfIsPlain(before, now, {});
      var listed := am.ListSilences();
      if !listed.Done? {
        return false;
      }
      var all, todo := listed.value, listed.value.Keys;
      ghost var gone: set<SilenceId> := {};
      while todo != {}
        invariant todo !! gone && todo + gone == all.Keys == before.silences.Keys
        invariant View() == SweepOf(before, now, gone)
        invariant am.calls >= old(am.calls)
        decreases todo
      {
        var id :| id in todo;
        todo := todo - {id};
        SweepOfNext(before, now, gone, id);
        SweepOfKeeps(before, now, gone);
        SweepOfIsPlain(before, now, gone);
        gone := gone + {id};
        var s := all[id];
        OrphanIs(before, id, now);
        if SilenceActive(s, now) && CREATED_BY_PREFIX <= s.createdBy && now - s.updated >= ORPHAN_GRACE
           && !exists i :: 0 <= i < |mutes| && MuteActive(mutes[i], now) && mutes[i].silence == Some(id) {
          var a := am.DeleteSilence(id, now);
          if a.Unreachable? {
            return false;
          }
        }
      }
      SweepOfKeeps(before, now, gone);
      SweepOfIsPlain(before, now, gone);
      reached := true;
    }

    /**
     * One pass. The first unreachable call latches degraded and ends the pass;
     * whatever happens, operators' silences are untouched and no two mutes share one.
     */
    method ReconcileOnce(now: int, replies: seq<Reply>)
      requires |replies| == |mutes| && Valid(View()) && FreshFrom(View(), replies, 0)
      modifies this, am
      ensures |mutes| == |old(mutes)| && Valid(View()) && OperatorsUntouched(old(View()), View())
      ensures (forall n :: am.up(n)) ==> !degraded && View() == Silences.ReconcileOnce(old(View()), now, replies)
      ensures !degraded ==> View() == Silences.ReconcileOnce(old(View()), now, replies)
                            && PassLeaves(old(View()), View(), now, replies)
    {
      hide Valid, FreshFrom, OperatorsUntouched, Silences.ReconcileMute, Silences.OrphanSweep;
      hide RowLeaves, PassLeaves, Stray;
      ghost var before := View();
      PassIsPlain(before, now, replies);
      for i := 0 to |mutes|
        invariant |mutes| == |before.mutes| && View() == ReconcileMutes(before, i, now, replies)
      {
        MutesAreReconciled(before, i, now, replies);
        ghost var here := View();
        assert ReconcileMutes(before, i + 1, now, replies) == Silences.ReconcileMute(here, i, now, replies[i]);
        if MuteActive(mutes[i], now) {
          var reached := this.ReconcileMute(i, now, replies[i]);
          if !reached {
            degraded := true;
            return;
          }
        } else {
          InactiveIsSkipped(View(), i, now, replies[i]);
        }
      }
      MutesAreReconciled(before, |mutes|, now, replies);
      ghost var middle := View();
      var reached := this.OrphanSweep(now);
      UntouchedTwice(before, middle, View());
      degraded := !reached;
    }
  }

  lemma OrphanIs(st: State, id: SilenceId, now: int)
    ensures Orphan(st, id, now) <==>
              && id in st.silences && SilenceActive(st.silences[id], now)
              && CREATED_BY_PREFIX <= st.silences[id].createdBy
              && now - st.silences[id].updated >= ORPHAN_GRACE
              && !exists i :: 0 <= i < |st.mutes| && MuteActive(st.mutes[i], now) && st.mutes[i].silence == Some(id)
  {
  }

  lemma InactiveIsSkipped(st: State, i: nat, now: int, r: Reply)
    requires i < |st.mutes| && !MuteActive(st.mutes[i], now)
    ensures ReconcileMute(st, i, now, r) == st
  {
  }
}
