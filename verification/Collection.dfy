/** The map of wanted events does not depend on the order in which a sync visits the functions. */
module Collection {
  import opened Wrappers
  import opened Structs
  import opened Slots
  import opened Events
  import opened FullSync

  /** Functions may claim one name twice only if they ask for the same. */
  ghost predicate Agreeing(env: Environment, funcs: Listing) {
    forall a, b, e, f ::
      a in funcs && b in funcs && e in EventsOf(env, funcs[a]) && f in EventsOf(env, funcs[b]) && KeyOf(e) == KeyOf(f)
      ==> e == f
  }

  lemma {:induction false} InOrder(env: Environment, funcs: Listing, arns: seq<string>, e: Event)
    requires forall arn :: arn in arns ==> arn in funcs
    ensures e in EventsInOrder(env, funcs, arns) <==> exists arn :: arn in arns && e in EventsOf(env, funcs[arn])
  {
    hide EventsOf;
    if arns != [] {
      var n := |arns| - 1;
      InOrder(env, funcs, arns[..n], e);
      assert arns == arns[..n] + [arns[n]];
    }
  }

  lemma EntryOf(events: seq<Event>, e: Event)
    ensures e in events <==> Write(KeyOf(e), Put(e)) in Entries(events)
  {
    if e in events {
      var i :| 0 <= i < |events| && events[i] == e;
      assert Entries(events)[i] == Write(KeyOf(e), Put(e));
    }
  }

  lemma EntriesArePuts(events: seq<Event>, w: Write<Key, Event>)
    requires w in Entries(events)
    ensures w.change.Put? && w.change.v in events && w.key == KeyOf(w.change.v)
  {
    var i :| 0 <= i < |events| && Entries(events)[i] == w;
    assert events[i] in events;
  }

  lemma EntriesConcat(es: seq<Event>, fs: seq<Event>)
    ensures Entries(es + fs) == Entries(es) + Entries(fs)
  {
  }

  /** The function visited last decides about its names. */
  lemma LastWins(env: Environment, funcs: Listing, arns: seq<string>, arn: string, e: Event)
    requires forall a :: a in arns + [arn] ==> a in funcs
    requires arn in funcs && e in EventsOf(env, funcs[arn])
    ensures Lookup(Collected(env, funcs, arns + [arn]), KeyOf(e)) == Some(e)
  {
    hide UpdateAll, Entries, EventsOf;
    var before, own := EventsInOrder(env, funcs, arns), EventsOf(env, funcs[arn]);
    assert (arns + [arn])[..|arns|] == arns;
    EntriesConcat(before, own);
    Concat(map[], Entries(before), Entries(own));
    EntryOf(own, e);
    forall w | w in Entries(own) && w.key == KeyOf(e) ensures w.change == Put(e) {
      EntriesArePuts(own, w);
      OneFunctionAgrees(env, funcs[arn], w.change.v, e);
    }
    Settled(UpdateAll(map[], Entries(before)), Entries(own), KeyOf(e), Put(e));
  }

  /** Every entry was asked for by some function, under its own key. */
  lemma {:induction false} CollectedFrom(events: seq<Event>, k: Key)
    ensures
      var m := UpdateAll(map[], Entries(events));
      k in m ==> m[k] in events && KeyOf(m[k]) == k
  {
    if events != [] {
      var n := |events| - 1;
      assert Entries(events)[..n] == Entries(events[..n]);
      CollectedFrom(events[..n], k);
    }
  }

  lemma OrderIrrelevantIf(env: Environment, funcs: Listing, p: seq<string>, q: seq<string>)
    requires Agreeing(env, funcs) && Visits(p, funcs.Keys) && Visits(q, funcs.Keys)
    ensures Collected(env, funcs, p) == Collected(env, funcs, q)
  {
    var es, fs := EventsInOrder(env, funcs, p), EventsInOrder(env, funcs, q);
    forall e ensures e in es <==> e in fs {
      InOrder(env, funcs, p, e);
      InOrder(env, funcs, q, e);
    }
    forall w ensures w in Entries(es) <==> w in Entries(fs) {
      if w in Entries(es) {
        EntriesArePuts(es, w);
        EntryOf(fs, w.change.v);
      }
      if w in Entries(fs) {
        EntriesArePuts(fs, w);
        EntryOf(es, w.change.v);
      }
    }
    forall w, v | w in Entries(es) && v in Entries(es) && w.key == v.key ensures w == v {
      EntriesArePuts(es, w);
      EntriesArePuts(es, v);
      InOrder(env, funcs, p, w.change.v);
      InOrder(env, funcs, p, v.change.v);
    }
    AnyOrder(map[], Entries(es), Entries(fs));
  }

  lemma OrderRelevantIf(env: Environment, funcs: Listing, a: string, b: string, e: Event, f: Event)
    returns (p: seq<string>, q: seq<string>)
    requires a in funcs && b in funcs && e in EventsOf(env, funcs[a]) && f in EventsOf(env, funcs[b])
    requires KeyOf(e) == KeyOf(f) && e != f
    ensures Visits(p, funcs.Keys) && Visits(q, funcs.Keys)
    ensures Collected(env, funcs, p) != Collected(env, funcs, q)
  {
    hide EventsOf, Collected;
    if a == b {
      OneFunctionAgrees(env, funcs[a], e, f);
      assert false;
    }
    var rest := SomeVisit(funcs.Keys - {a, b});
    VisitOne(rest, funcs.Keys - {a, b}, a);
    VisitOne(rest + [a], funcs.Keys - {a, b} + {a}, b);
    VisitOne(rest, funcs.Keys - {a, b}, b);
    VisitOne(rest + [b], funcs.Keys - {a, b} + {b}, a);
    assert funcs.Keys - {a, b} + {a} + {b} == funcs.Keys == funcs.Keys - {a, b} + {b} + {a};
    p, q := rest + [a] + [b], rest + [b] + [a];
    LastWins(env, funcs, rest + [a], b, f);
    LastWins(env, funcs, rest + [b], a, e);
  }

  /** The wanted map is the same for every order exactly when the functions agree. */
  lemma OrderIrrelevant(env: Environment, funcs: Listing)
    ensures Agreeing(env, funcs) <==>
            forall p, q :: Visits(p, funcs.Keys) && Visits(q, funcs.Keys)
              ==> Collected(env, funcs, p) == Collected(env, funcs, q)
  {
    if Agreeing(env, funcs) {
      forall p, q | Visits(p, funcs.Keys) && Visits(q, funcs.Keys)
        ensures Collected(env, funcs, p) == Collected(env, funcs, q)
      {
        OrderIrrelevantIf(env, funcs, p, q);
      }
    } else {
      var a, b, e, f :|
        a in funcs && b in funcs && e in EventsOf(env, funcs[a]) && f in EventsOf(env, funcs[b])
        && KeyOf(e) == KeyOf(f) && e != f;
      var p, q := OrderRelevantIf(env, funcs, a, b, e, f);
    }
  }

  /** A function with alias `a` and one called like its aliased name ask for different things. */
  lemma AliasesClash(env: Environment, name: string, alias: string)
    requires !env.isEnterprise && env.datacenter == "" && LIST_SEPARATOR !in alias
    ensures
      var f := LambdaFunction("x", name, map[ENABLED_TAG := "true", ALIASES_TAG := alias]);
      var g := LambdaFunction("y", name + "-" + alias, map[ENABLED_TAG := "true"]);
      !Agreeing(env, map["x" := f, "y" := g])
  {
    var f := LambdaFunction("x", name, map[ENABLED_TAG := "true", ALIASES_TAG := alias]);
    var g := LambdaFunction("y", name + "-" + alias, map[ENABLED_TAG := "true"]);
    TagsDiffer();
    Text.SplitNothing(alias, LIST_SEPARATOR);
    var e, e' := BaseEvent(env, f).AddAlias(alias), BaseEvent(env, g);
    assert EventsOf(env, f)[1] == e && EventsOf(env, g)[0] == e';
    var funcs := map["x" := f, "y" := g];
    assert funcs["x"] == f && funcs["y"] == g;
    assert KeyOf(e) == KeyOf(e') && e.args.arn == "x" + ":" + alias;
    assert |e.args.arn| > |e'.args.arn|;
  }

  lemma TagsDiffer()
    ensures {ENABLED_TAG, ALIASES_TAG} !! {DATACENTER_TAG, INVOCATION_MODE_TAG, PARTITION_TAG, NAMESPACE_TAG}
    ensures ENABLED_TAG != ALIASES_TAG
  {
    var n := |PREFIX| + 1;
    assert ENABLED_TAG[n] == 'e' && ENABLED_TAG[n + 1] == 'n';
    assert ALIASES_TAG[n] == 'a';
    assert DATACENTER_TAG[n] == 'd' && INVOCATION_MODE_TAG[n] == 'i' && PARTITION_TAG[n] == 'p'
        && NAMESPACE_TAG[n] == 'n';
  }

  function Filtered(order: seq<string>, kept: set<string>): (r: seq<string>)
    ensures forall arn :: arn in r <==> arn in order && arn in kept
    ensures Distinct(order) ==> Distinct(r)
  {
    if order == [] then []
    else
      var n := |order| - 1;
      assert order == order[..n] + [order[n]];
      Filtered(order[..n], kept) + if order[n] in kept then [order[n]] else []
  }

  lemma {:induction false} FilteredEvents(env: Environment, funcs: Listing, kept: Listing, order: seq<string>)
    requires forall arn :: arn in order ==> arn in funcs
    requires forall arn :: arn in kept ==> arn in funcs && kept[arn] == funcs[arn]
    requires forall arn :: arn in funcs && arn !in kept ==> EventsOf(env, funcs[arn]) == []
    ensures EventsInOrder(env, kept, Filtered(order, kept.Keys)) == EventsInOrder(env, funcs, order)
  {
    hide EventsOf;
    if order != [] {
      var n := |order| - 1;
      FilteredEvents(env, funcs, kept, order[..n]);
      var before := Filtered(order[..n], kept.Keys);
      assert order[n] in funcs;
      if order[n] in kept {
        assert (before + [order[n]])[..|before|] == before;
      } else {
        assert before + [] == before;
        assert EventsInOrder(env, funcs, order[..n]) + [] == EventsInOrder(env, funcs, order[..n]);
      }
    }
  }

  /** Functions with enterprise tags add nothing to a sync without Enterprise; they can be left out of the listing. */
  lemma RejectedAddNothing(env: Environment, funcs: Listing, order: seq<string>)
    requires Visits(order, funcs.Keys)
    ensures
      var kept := map arn | arn in funcs && LambdaEvents(env, funcs[arn]) != Err(NotEnterprise) :: funcs[arn];
      Visits(Filtered(order, kept.Keys), kept.Keys)
      && Collected(env, kept, Filtered(order, kept.Keys)) == Collected(env, funcs, order)
  {
    var kept := map arn | arn in funcs && LambdaEvents(env, funcs[arn]) != Err(NotEnterprise) :: funcs[arn];
    FilteredEvents(env, funcs, kept, order);
  }
}
