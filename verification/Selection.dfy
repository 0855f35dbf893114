/** Which instances a headless query runs on: `--all` first, then the selectors in order, each CRN
    once. It is why the snapshot writer never meets a duplicate frame. */
module Selection {
  import opened Options
  import opened Framing
  import opened ContainerWriter
  import opened SnapshotFrames

  datatype Target = Target(name: string, crn: seq<byte>, env: string)

  datatype Error = NoSelector | UnknownSelector(selector: string) | NothingResolved | UnknownEnvironment(target: Target)

  datatype Result = Ok(targets: seq<Target>) | Err(error: Error)

  /** The configured instance a name stands for: the last one of that name. */
  function Named(effective: seq<Target>, name: string): Option<Target> {
    if effective == [] then None
    else if effective[|effective| - 1].name == name then Some(effective[|effective| - 1])
    else Named(effective[..|effective| - 1], name)
  }

  /** A selector is a configured name, or else a CRN. */
  function Resolve(effective: seq<Target>, selector: string, parse: string -> Option<Target>): Option<Target> {
    match Named(effective, selector)
    case Some(t) => Some(t)
    case None => parse(selector)
  }

  /** A name stands for the last configured instance of that name. */
  lemma {:induction false} ResolvesName(effective: seq<Target>, selector: string, parse: string -> Option<Target>,
                                        i: nat)
    requires i < |effective| && effective[i].name == selector
    requires forall j :: i < j < |effective| ==> effective[j].name != selector
    ensures Resolve(effective, selector, parse) == Some(effective[i])
    decreases |effective|
  {
    if i == |effective| - 1 {
    } else {
      ResolvesName(effective[..|effective| - 1], selector, parse, i);
    }
  }

  /** And only a selector that is no configured name is read as a CRN. */
  lemma {:induction false} ResolvesCrn(effective: seq<Target>, selector: string, parse: string -> Option<Target>)
    requires forall j :: 0 <= j < |effective| ==> effective[j].name != selector
    ensures Resolve(effective, selector, parse) == parse(selector)
    decreases |effective|
  {
    if effective == [] {
    } else {
      ResolvesCrn(effective[..|effective| - 1], selector, parse);
    }
  }

  function Crns(ts: seq<Target>): set<seq<byte>> {
    set t | t in ts :: t.crn
  }

  /** Each CRN once, where it first occurs. */
  function Once(ts: seq<Target>): seq<Target> {
    if ts == [] then []
    else
      var front, last := Once(ts[..|ts| - 1]), ts[|ts| - 1];
      if last.crn in Crns(front) then front else front + [last]
  }

  ghost predicate AllDistinct(ts: seq<Target>) {
    forall i, j :: 0 <= i < j < |ts| ==> ts[i].crn != ts[j].crn
  }

  lemma {:induction false} OnceKeeps(ts: seq<Target>)
    ensures AllDistinct(Once(ts)) && Crns(Once(ts)) == Crns(ts) && (forall t :: t in Once(ts) ==> t in ts)
  {
    if ts == [] {
    } else {
      var front, last := ts[..|ts| - 1], ts[|ts| - 1];
      OnceKeeps(front);
      assert ts == front + [last];
      assert Crns(ts) == Crns(front) + {last.crn};
      if last.crn !in Crns(Once(front)) {
        assert Crns(Once(front) + [last]) == Crns(Once(front)) + {last.crn};
      }
    }
  }

  /** The first occurrence of a CRN is kept, behind all the CRNs that occur before it. */
  lemma {:induction false} OnceInOrder(ts: seq<Target>, i: nat)
    requires i < |ts| && ts[i].crn !in Crns(ts[..i])
    ensures |Crns(ts[..i])| < |Once(ts)| == |Crns(ts)| && Once(ts)[|Crns(ts[..i])|] == ts[i]
    decreases |ts|
  {
    var front := ts[..|ts| - 1];
    OnceCounts(ts);
    OnceCounts(front);
    OnceSnoc(front, ts[|ts| - 1]);
    assert ts == front + [ts[|ts| - 1]];
    if i == |front| {
      assert ts[..i] == front;
    } else {
      assert front[..i] == ts[..i];
      OnceInOrder(front, i);
    }
  }

  lemma {:induction false} OnceCounts(ts: seq<Target>)
    ensures |Once(ts)| == |Crns(ts)|
  {
    if ts == [] {
      assert Crns(ts) == {};
    } else {
      var front, last := ts[..|ts| - 1], ts[|ts| - 1];
      OnceCounts(front);
      OnceKeeps(front);
      CrnsMore(ts);
    }
  }

  lemma CrnsMore(ts: seq<Target>)
    requires ts != []
    ensures Crns(ts) == Crns(ts[..|ts| - 1]) + {ts[|ts| - 1].crn}
  {
    var front, last := ts[..|ts| - 1], ts[|ts| - 1];
    assert ts == front + [last];
    forall c
      ensures c in Crns(ts) <==> c in Crns(front) || c == last.crn
    {
      if c in Crns(ts) {
        var t :| t in ts && t.crn == c;
        assert t in front || t == last;
      }
    }
  }

  lemma OnceSnoc(ts: seq<Target>, t: Target)
    ensures Once(ts + [t]) == if t.crn in Crns(ts) then Once(ts) else Once(ts) + [t]
  {
    assert (ts + [t])[..|ts|] == ts;
    OnceKeeps(ts);
  }

  /** Everything asked for, up to the first selector that means nothing. */
  function Wanted(effective: seq<Target>, all: bool, selectors: seq<string>,
                  parse: string -> Option<Target>): seq<Target> {
    (if all then effective else []) + Resolved(effective, selectors, parse)
  }

  function Resolved(effective: seq<Target>, selectors: seq<string>, parse: string -> Option<Target>): seq<Target> {
    if selectors == [] then []
    else
      var front, last := selectors[..|selectors| - 1], Resolve(effective, selectors[|selectors| - 1], parse);
      Resolved(effective, front, parse) + if last.Some? then [last.value] else []
  }

  lemma {:induction false} ResolvedInOrder(effective: seq<Target>, selectors: seq<string>,
                                           parse: string -> Option<Target>)
    requires AllResolve(effective, selectors, parse)
    ensures var r := Resolved(effective, selectors, parse);
            && |r| == |selectors|
            && forall i :: 0 <= i < |selectors| ==> Resolve(effective, selectors[i], parse) == Some(r[i])
  {
    if selectors == [] {
    } else {
      var front, last := selectors[..|selectors| - 1], selectors[|selectors| - 1];
      assert (forall s :: s in front ==> s in selectors) && last in selectors;
      ResolvedInOrder(effective, front, parse);
      var r := Resolved(effective, selectors, parse);
      hide Resolve;
      forall i | 0 <= i < |selectors|
        ensures |r| == |selectors| && Resolve(effective, selectors[i], parse) == Some(r[i])
      {
        assert i < |front| ==> selectors[i] == front[i] && r[i] == Resolved(effective, front, parse)[i];
      }
    }
  }

  /** What is asked for: every configured instance with `--all`, and then what each selector stands for. */
  lemma WantedInOrder(effective: seq<Target>, all: bool, selectors: seq<string>, parse: string -> Option<Target>,
                      i: nat)
    requires AllResolve(effective, selectors, parse)
    ensures var wanted, n := Wanted(effective, all, selectors, parse), if all then |effective| else 0;
            && |wanted| == n + |selectors| && (all ==> wanted[..n] == effective)
            && (i < |selectors| ==> Resolve(effective, selectors[i], parse) == Some(wanted[n + i]))
  {
    ResolvedInOrder(effective, selectors, parse);
  }

  /** The list so far and the set that guards it, after all of `ts`. */
  ghost predicate Collected(selected: seq<Target>, seen: set<seq<byte>>, ts: seq<Target>) {
    selected == Once(ts) && seen == Crns(ts)
  }

  method Add(selected: seq<Target>, seen: set<seq<byte>>, t: Target, ghost ts: seq<Target>)
    returns (s: seq<Target>, n: set<seq<byte>>)
    requires Collected(selected, seen, ts)
    ensures Collected(s, n, ts + [t])
  {
    OnceSnoc(ts, t);
    assert Crns(ts + [t]) == Crns(ts) + {t.crn};
    if t.crn in seen {
      return selected, seen;
    }
    return selected + [t], seen + {t.crn};
  }

  method AddAll(targets: seq<Target>) returns (selected: seq<Target>, seen: set<seq<byte>>)
    ensures Collected(selected, seen, targets)
  {
    selected, seen := [], {};
    for i := 0 to |targets|
      invariant Collected(selected, seen, targets[..i])
    {
      selected, seen := Add(selected, seen, targets[i], targets[..i]);
      assert targets[..i + 1] == targets[..i] + [targets[i]];
    }
    assert targets[..|targets|] == targets;
  }

  /** The first selector that stands for nothing. */
  ghost predicate FirstUnknown(effective: seq<Target>, selectors: seq<string>, parse: string -> Option<Target>,
                               selector: string) {
    exists i :: 0 <= i < |selectors| && selectors[i] == selector && Resolve(effective, selector, parse).None?
                && AllResolve(effective, selectors[..i], parse)
  }

  predicate AllResolve(effective: seq<Target>, selectors: seq<string>, parse: string -> Option<Target>) {
    forall s :: s in selectors ==> Resolve(effective, s, parse).Some?
  }

  lemma ResolvedSnoc(effective: seq<Target>, selectors: seq<string>, i: nat,
                     parse: string -> Option<Target>)
    requires i < |selectors| && Resolve(effective, selectors[i], parse).Some?
    ensures Resolved(effective, selectors[..i + 1], parse)
            == Resolved(effective, selectors[..i], parse) + [Resolve(effective, selectors[i], parse).value]
    ensures AllResolve(effective, selectors[..i], parse) ==> AllResolve(effective, selectors[..i + 1], parse)
  {
    assert selectors[..i + 1][..i] == selectors[..i];
    assert selectors[..i + 1] == selectors[..i] + [selectors[i]];
  }

  method AddSelectors(effective: seq<Target>, selectors: seq<string>, parse: string -> Option<Target>,
                      first: seq<Target>, guard: set<seq<byte>>, ghost before: seq<Target>)
    returns (selected: seq<Target>, unknown: Option<string>)
    requires Collected(first, guard, before)
    ensures unknown.None? ==>
              && AllResolve(effective, selectors, parse)
              && selected == Once(before + Resolved(effective, selectors, parse))
    ensures unknown.Some? ==> FirstUnknown(effective, selectors, parse, unknown.value)
  {
    var seen := guard;
    selected := first;
    assert before + [] == before;
    for i := 0 to |selectors|
      invariant Collected(selected, seen, before + Resolved(effective, selectors[..i], parse))
      invariant AllResolve(effective, selectors[..i], parse)
    {
      var t := Resolve(effective, selectors[i], parse);
      if t.None? {
        return selected, Some(selectors[i]);
      }
      ghost var resolved := Resolved(effective, selectors[..i], parse);
      ResolvedSnoc(effective, selectors, i, parse);
      Associative(before, resolved, [t.value]);
      selected, seen := Add(selected, seen, t.value, before + resolved);
    }
    assert selectors[..|selectors|] == selectors;
    unknown := None;
  }

  /** A selection is valid: something is asked for, every selector stands for an instance, some instance
      is found, and the environment of each is configured. */
  predicate Selectable(effective: seq<Target>, environments: set<string>, all: bool, selectors: seq<string>,
                       parse: string -> Option<Target>) {
    var targets := Once(Wanted(effective, all, selectors, parse));
    && (all || selectors != []) && AllResolve(effective, selectors, parse) && targets != []
    && forall t :: t in targets ==> t.env in environments
  }

  /** The first target whose environment is not configured. */
  ghost predicate FirstForeign(targets: seq<Target>, environments: set<string>, t: Target) {
    exists i :: 0 <= i < |targets| && targets[i] == t && t.env !in environments
                && forall j :: 0 <= j < i ==> targets[j].env in environments
  }

  /** selectedQueryInstances: a valid selection gives its targets in order, each once; any other gives
      the first of its errors, in the order in which they are looked for. */
  method SelectedInstances(effective: seq<Target>, environments: set<string>, all: bool, selectors: seq<string>,
                           parse: string -> Option<Target>)
    returns (r: Result)
    ensures r.Ok? <==> Selectable(effective, environments, all, selectors, parse)
    ensures r.Ok? ==> r.targets == Once(Wanted(effective, all, selectors, parse))
    ensures r == Err(NoSelector) <==> !all && selectors == []
    ensures r.Err? && r.error.UnknownSelector? <==> (all || selectors != []) && !AllResolve(effective, selectors, parse)
    ensures r.Err? && r.error.UnknownSelector? ==> FirstUnknown(effective, selectors, parse, r.error.selector)
    ensures r == Err(NothingResolved) <==>
              && (all || selectors != []) && AllResolve(effective, selectors, parse)
              && Wanted(effective, all, selectors, parse) == []
    ensures r.Err? && r.error.UnknownEnvironment? ==>
              && AllResolve(effective, selectors, parse)
              && FirstForeign(Once(Wanted(effective, all, selectors, parse)), environments, r.error.target)
  {
    if !all && selectors == [] {
      return Err(NoSelector);
    }
    var before := if all then effective else [];
    var selected, seen := AddAll(before);
    var unknown;
    selected, unknown := AddSelectors(effective, selectors, parse, selected, seen, before);
    if unknown.Some? {
      return Err(UnknownSelector(unknown.value));
    }
    OnceEmpty(Wanted(effective, all, selectors, parse));
    if selected == [] {
      return Err(NothingResolved);
    }
    for i := 0 to |selected|
      invariant forall j :: 0 <= j < i ==> selected[j].env in environments
    {
      if selected[i].env !in environments {
        return Err(UnknownEnvironment(selected[i]));
      }
    }
    r := Ok(selected);
  }

  lemma OnceEmpty(ts: seq<Target>)
    ensures Once(ts) == [] <==> ts == []
  {
    OnceKeeps(ts);
    if ts != [] {
      assert ts[0].crn in Crns(ts);
    }
  }

  /** The snapshot members of a selection, with each target's log count and size. */
  function MembersOf(targets: seq<Target>, sizes: seq<(nat, nat)>): (ms: seq<Member>)
    requires |targets| == |sizes|
    ensures |ms| == |targets|
  {
    seq(|targets|, i requires 0 <= i < |targets| => Member(targets[i].crn, sizes[i].0, sizes[i].1))
  }

  /** The snapshot of any selection is never refused for a duplicate frame: it is published exactly when
      the selection is valid, everything fits, its sizes are consistent, no write fails and closing
      works. */
  method WriteSelection(sink: Sink, effective: seq<Target>, environments: set<string>, all: bool,
                        selectors: seq<string>, parse: string -> Option<Target>, sizes: seq<(nat, nat)>,
                        logs: seq<seq<byte>>, state: seq<byte>, closed: bool)
    returns (selection: Result, published: bool, duplicate: bool)
    requires sink.data == [] && !sink.faulted
    modifies sink
    ensures !duplicate
    ensures selection.Ok? <==> Selectable(effective, environments, all, selectors, parse)
    ensures var targets := Once(Wanted(effective, all, selectors, parse));
            published <==>
              && Selectable(effective, environments, all, selectors, parse) && |targets| == |sizes| == |logs|
              && Fits(MembersOf(targets, sizes), logs, state) && closed && !sink.faulted
    ensures var targets := Once(Wanted(effective, all, selectors, parse));
            published ==> |targets| == |sizes| == |logs|
                          && Complete(MemberFrames(MembersOf(targets, sizes), logs) + [Frame(STATE_NAME, state)],
                                      MembersOf(targets, sizes))
  {
    selection := SelectedInstances(effective, environments, all, selectors, parse);
    if selection.Err? || |selection.targets| != |sizes| || |sizes| != |logs| {
      return selection, false, false;
    }
    OnceKeeps(Wanted(effective, all, selectors, parse));
    published, duplicate := WriteQuerySnapshot(sink, MembersOf(selection.targets, sizes), logs, state, closed);
  }
}
