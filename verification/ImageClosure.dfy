/**
 * Rollback tags for the old images (`_tag_old_images` in scripts/atomic_local_update.py): a worklist over the
 * Compose dependency graph. `docker image inspect` and the two patterns come from outside.
 */
module ImageClosure {
  import opened Wrappers
  import opened Texts
  import opened TextOrder
  import opened TextSort

  datatype Record = Record(service: string, image: string)

  /** `image` is `None` when it is missing or empty. */
  datatype Service = Service(image: Option<string>, dependsOn: seq<string>)

  type Model = map<string, Service>

  /** `inspect` gives the id of an image reference; the two predicates are the patterns for names and ids. */
  datatype Host = Host(inspect: string -> string, isName: string -> bool, isId: string -> bool)

  /** `images` maps a service to its tag, `from` to the image that was given the tag. */
  datatype Outcome =
    | InventoryInvalid
    | ImageUnavailable
    | Tagged(images: map<string, string>, from: map<string, string>)

  // ---------------------------------------------------------------- the closure

  function DependsOn(model: Model, service: string): seq<string>
  {
    if service in model then model[service].dependsOn else []
  }

  function Running(records: seq<Record>): set<string> { set i | 0 <= i < |records| :: records[i].service }

  /** The dependencies of `s` among the first `n` are in `within`. */
  predicate Satisfied(model: Model, s: string, within: set<string>, n: nat)
    requires n <= |DependsOn(model, s)|
  {
    forall i :: 0 <= i < n ==> DependsOn(model, s)[i] in within
  }

  predicate Closed(model: Model, services: set<string>)
  {
    forall s :: s in services ==> Satisfied(model, s, services, |DependsOn(model, s)|)
  }

  /** Closed: what a service of the model depends on is there with it. */
  lemma ClosedExactly(model: Model, services: set<string>)
    ensures Closed(model, services) <==>
            forall s, dependency :: s in services && s in model && dependency in model[s].dependsOn ==>
              dependency in services
  {
    if Closed(model, services) {
      forall s, dependency | s in services && s in model && dependency in model[s].dependsOn
        ensures dependency in services
      {
        assert Satisfied(model, s, services, |DependsOn(model, s)|);
      }
    }
  }

  /** Inside every closed set that contains the roots. */
  ghost predicate Needed(model: Model, roots: set<string>, services: set<string>)
  {
    forall c: set<string> :: roots <= c && Closed(model, c) ==> services <= c
  }

  /** The least set that contains the roots and is closed under `depends_on`. */
  ghost predicate IsClosure(model: Model, roots: set<string>, services: set<string>)
  {
    roots <= services && Closed(model, services) && Needed(model, roots, services)
  }

  lemma ClosureIsUnique(model: Model, roots: set<string>, a: set<string>, b: set<string>)
    requires IsClosure(model, roots, a) && IsClosure(model, roots, b)
    ensures a == b
  {
    assert a <= b && b <= a;
  }

  /** Every name that can ever enter the worklist. */
  function Universe(model: Model, roots: set<string>): set<string>
  {
    roots + set s, i | s in model && 0 <= i < |model[s].dependsOn| :: model[s].dependsOn[i]
  }

  /** The state of the worklist: what is required but neither pending nor `busy` has all its dependencies. */
  ghost predicate Working(model: Model, roots: set<string>, required: set<string>, pending: seq<string>,
                          busy: set<string>)
  {
    && roots <= required <= Universe(model, roots)
    && (forall k :: 0 <= k < |pending| ==> pending[k] in required)
    && (forall s :: s in required && s !in pending && s !in busy ==>
          Satisfied(model, s, required, |DependsOn(model, s)|))
    && Needed(model, roots, required)
  }

  /** The worklist: it ends on every graph, cycles included, with the closure. */
  method RequiredServices(model: Model, records: seq<Record>) returns (required: set<string>)
    ensures IsClosure(model, Running(records), required)
  {
    var roots := Running(records);
    required := roots;
    var pending := Listing(roots);
    ghost var universe := Universe(model, roots);
    while pending != []
      invariant Working(model, roots, required, pending, {})
      decreases |universe - required|, |pending|
    {
      ghost var was := required;
      required, pending := Expand(model, roots, required, pending);
      Shrinks(universe, was, required);
    }
  }

  lemma Shrinks(universe: set<string>, was: set<string>, now: set<string>)
    requires was <= now <= universe
    ensures was == now || |universe - now| < |universe - was|
  {
    if was != now {
      var x :| x in now && x !in was;
      assert universe - now <= universe - was - {x};
      SubsetSize(universe - now, universe - was - {x});
    }
  }

  lemma {:induction false} SubsetSize(a: set<string>, b: set<string>)
    requires a <= b
    ensures |a| <= |b|
    decreases |a|
  {
    if a != {} {
      var x :| x in a;
      SubsetSize(a - {x}, b - {x});
    }
  }

  /** `list(services)`, in some order. */
  method Listing(services: set<string>) returns (list: seq<string>)
    ensures forall s :: s in list <==> s in services
  {
    list := [];
    var rest := services;
    while rest != {}
      invariant rest <= services && forall s :: s in list <==> s in services - rest
      decreases |rest|
    {
      var s :| s in rest;
      list, rest := list + [s], rest - {s};
    }
  }

  /** One round: take the last pending service and add its new dependencies. */
  method Expand(model: Model, ghost roots: set<string>, required: set<string>, pending: seq<string>)
    returns (required': set<string>, pending': seq<string>)
    requires pending != [] && Working(model, roots, required, pending, {})
    ensures required <= required' && Working(model, roots, required', pending', {})
    ensures required' == required ==> |pending'| < |pending|
  {
    var service := pending[|pending| - 1];
    required', pending' := required, pending[..|pending| - 1];
    TakeLast(model, roots, required, pending);
    var dependencies := DependsOn(model, service);
    for i := 0 to |dependencies|
      invariant required <= required' && service in required'
      invariant Working(model, roots, required', pending', {service})
      invariant Satisfied(model, service, required', i)
      invariant required' == required ==> |pending'| < |pending|
    {
      var dependency := dependencies[i];
      if dependency !in required' {
        AddDependency(model, roots, required', pending', service, i);
        required', pending' := required' + {dependency}, pending' + [dependency];
      }
    }
  }

  lemma TakeLast(model: Model, roots: set<string>, required: set<string>, pending: seq<string>)
    requires pending != [] && Working(model, roots, required, pending, {})
    ensures Working(model, roots, required, pending[..|pending| - 1], {pending[|pending| - 1]})
  {
    var front, last := pending[..|pending| - 1], pending[|pending| - 1];
    assert pending == front + [last];
  }

  lemma AddDependency(model: Model, roots: set<string>, required: set<string>, pending: seq<string>, service: string,
                      i: nat)
    requires Working(model, roots, required, pending, {service}) && service in required
    requires i < |DependsOn(model, service)| && Satisfied(model, service, required, i)
    ensures var dependency := DependsOn(model, service)[i];
            && Working(model, roots, required + {dependency}, pending + [dependency], {service})
            && Satisfied(model, service, required + {dependency}, i + 1)
  {
    var dependency := DependsOn(model, service)[i];
    NeededGrows(model, roots, required, service, i);
    var more, all := required + {dependency}, pending + [dependency];
    assert dependency in Universe(model, roots);
    forall s | s in more && s !in all && s != service ensures Satisfied(model, s, more, |DependsOn(model, s)|) {
      assert s != dependency by {
        assert all[|pending|] == dependency;
      }
      assert s !in pending by {
        assert forall k :: 0 <= k < |pending| ==> all[k] == pending[k];
      }
      assert Satisfied(model, s, required, |DependsOn(model, s)|);
    }
  }

  lemma NeededGrows(model: Model, roots: set<string>, required: set<string>, service: string, i: nat)
    requires Needed(model, roots, required) && service in required && i < |DependsOn(model, service)|
    ensures Needed(model, roots, required + {DependsOn(model, service)[i]})
  {
    forall c: set<string> | roots <= c && Closed(model, c) ensures required + {DependsOn(model, service)[i]} <= c {
      assert service in c;
    }
  }

  // ---------------------------------------------------------------- tagging

  /** What the tags are made for; `head` is the first 20 characters of the transaction. */
  datatype Job = Job(host: Host, project: string, head: string, model: Model, records: seq<Record>)

  function TagOf(head: string, service: string): string { "treseko-rollback:" + head + "-" + service }

  lemma TagsAreDistinct(head: string, a: string, b: string)
    requires TagOf(head, a) == TagOf(head, b)
    ensures a == b
  {
    var prefix := "treseko-rollback:" + head + "-";
    assert TagOf(head, a)[|prefix|..] == a && TagOf(head, b)[|prefix|..] == b;
  }

  /** `head` is what is left of the transaction within 20 characters. */
  predicate IsHead(head: string, transaction: string)
  {
    head <= transaction && |head| <= 20 && (|head| < 20 ==> head == transaction)
  }

  /** The image reference of a dependency that is not running. */
  function ImageRef(job: Job, service: string): string
    requires service in job.model
  {
    if job.model[service].image.Some? then job.model[service].image.value else job.project + "-" + service
  }

  /** The image of the declared reference or, when none is declared, of the one that Compose gives the service. */
  function ImageOf(job: Job, service: string): string
    requires service in job.model
  {
    match job.model[service].image
    case Some(declared) => job.host.inspect(declared)
    case None => job.host.inspect(job.project + "-" + service)
  }

  predicate Resolvable(job: Job, service: string)
  {
    job.host.isName(service) && service in job.model && job.host.isId(ImageOf(job, service))
  }

  predicate AllResolvable(job: Job, services: set<string>) { forall s :: s in services ==> Resolvable(job, s) }

  /** The first service in code point order that stands in the way, and the error it is refused with. */
  ghost predicate RefusedFor(job: Job, services: set<string>, r: Outcome, s: string)
  {
    && s in services && !Resolvable(job, s)
    && (forall t :: t in services && CompareText(t, s) < 0 ==> Resolvable(job, t))
    && r == if job.host.isName(s) && s in job.model then ImageUnavailable else InventoryInvalid
  }

  /** `record` stands at position `i`, and no later record is of its service. */
  predicate IsLastOf(records: seq<Record>, i: nat, record: Record)
    requires i < |records|
  {
    records[i] == record && forall k :: i < k < |records| ==> records[k].service != record.service
  }

  /** What the tag of a service must name: the image its last record runs, or the image of a stopped dependency. */
  predicate RightImage(job: Job, service: string, image: string)
  {
    if service in Running(job.records)
    then exists i :: 0 <= i < |job.records| && IsLastOf(job.records, i, Record(service, image))
    else service in job.model && image == ImageOf(job, service)
  }

  /** Exactly the services of `done` have a tag, their own, and each was made from the right image. */
  predicate TaggedExactly(job: Job, done: set<string>, images: map<string, string>, from: map<string, string>)
  {
    && images.Keys == done && from.Keys == done
    && forall s :: s in done ==> images[s] == TagOf(job.head, s) && RightImage(job, s, from[s])
  }

  /**
   * `_tag_old_images`: it succeeds exactly when every stopped dependency has an image, and then tags exactly the
   * closure; otherwise it is refused for the first dependency, in sorted order, that has none.
   */
  method TagOldImages(host: Host, project: string, transaction: string, model: Model, records: seq<Record>)
    returns (r: Outcome)
    ensures forall head, required: set<string> ::
              IsHead(head, transaction) && IsClosure(model, Running(records), required) ==>
              var job, running := Job(host, project, head, model, records), Running(records);
              && (r.Tagged? <==> AllResolvable(job, required - running))
              && (r.Tagged? ==> TaggedExactly(job, required, r.images, r.from))
              && (!r.Tagged? ==> exists s :: RefusedFor(job, required - running, r, s))
    ensures r.Tagged? ==> IsClosure(model, Running(records), r.images.Keys)
  {
    var services := RequiredServices(model, records);
    var head := if |transaction| <= 20 then transaction else transaction[..20];
    r := TagServices(Job(host, project, head, model, records), services);
    forall other | IsHead(other, transaction) ensures other == head {
      assert other == transaction[..|other|];
    }
    forall required: set<string> | IsClosure(model, Running(records), required) ensures required == services {
      ClosureIsUnique(model, Running(records), required, services);
    }
  }

  method TagServices(job: Job, services: set<string>) returns (r: Outcome)
    requires Running(job.records) <= services
    ensures r.Tagged? <==> AllResolvable(job, services - Running(job.records))
    ensures r.Tagged? ==> TaggedExactly(job, services, r.images, r.from)
    ensures !r.Tagged? ==> exists s :: RefusedFor(job, services - Running(job.records), r, s)
  {
    var images, from := TagRunning(job);
    var names := SortedListing(services - images.Keys);
    ghost var running := images.Keys;
    for i := 0 to |names|
      invariant TaggedExactly(job, images.Keys, images, from)
      invariant forall s :: s in images <==> s in running || s in names[..i]
      invariant forall k :: 0 <= k < i ==> Resolvable(job, names[k])
    {
      var failure, id := InspectImage(job, names[i]);
      if failure.Some? {
        assert names[i] in services - running;
        FirstFailure(job, services - running, names, i);
        assert RefusedFor(job, services - running, failure.value, names[i]);
        return failure.value;
      }
      assert names[i] in names;
      TagOne(job, images.Keys, images, from, names[i], id);
      assert names[..i + 1] == names[..i] + [names[i]];
      var tag := "treseko-rollback:" + job.head + "-" + names[i];
      images, from := images[names[i] := tag], from[names[i] := id];
    }
    assert names[..|names|] == names;
    assert images.Keys == services;
    r := Tagged(images, from);
  }

  /** `sorted(services)`. */
  method SortedListing(services: set<string>) returns (names: seq<string>)
    ensures (forall s :: s in names <==> s in services) && Ascending(names)
  {
    var list := Listing(services);
    names := Sort(list);
    SortAscends(list);
    forall s ensures s in names <==> s in list {
      SortMembers(list, s);
    }
  }

  /** In a sorted list the first failure is the least one. */
  lemma FirstFailure(job: Job, services: set<string>, names: seq<string>, i: nat)
    requires (forall s :: s in services ==> s in names) && Ascending(names)
    requires i < |names| && forall k :: 0 <= k < i ==> Resolvable(job, names[k])
    ensures forall t :: t in services && CompareText(t, names[i]) < 0 ==> Resolvable(job, t)
  {
    forall t | t in services && CompareText(t, names[i]) < 0 ensures Resolvable(job, t) {
      var k :| 0 <= k < |names| && names[k] == t;
      CharOrder();
      LexFlips(CompareChar, t, names[i]);
    }
  }

  lemma TagOne(job: Job, done: set<string>, images: map<string, string>, from: map<string, string>, service: string,
               image: string)
    requires TaggedExactly(job, done, images, from) && RightImage(job, service, image)
    ensures TaggedExactly(job, done + {service}, images[service := TagOf(job.head, service)], from[service := image])
  {
  }

  method InspectImage(job: Job, service: string) returns (failure: Option<Outcome>, id: string)
    ensures failure.None? <==> Resolvable(job, service)
    ensures failure.None? ==> id == ImageOf(job, service)
    ensures failure.Some? ==>
              failure.value ==
                if job.host.isName(service) && service in job.model then ImageUnavailable else InventoryInvalid
  {
    if !job.host.isName(service) || service !in job.model {
      return Some(InventoryInvalid), "";
    }
    id := job.host.inspect(ImageRef(job, service));
    failure := if job.host.isId(id) then None else Some(ImageUnavailable);
  }

  method TagRunning(job: Job) returns (images: map<string, string>, from: map<string, string>)
    ensures TaggedExactly(job, Running(job.records), images, from)
  {
    images, from := map[], map[];
    var records := job.records;
    for i := 0 to |records|
      invariant TaggedExactly(job.(records := records[..i]), Running(records[..i]), images, from)
    {
      var record := records[i];
      RunningGrows(records, i);
      LastGrows(job, records, i, from);
      var tag := "treseko-rollback:" + job.head + "-" + record.service;
      images, from := images[record.service := tag], from[record.service := record.image];
    }
    assert records[..|records|] == records;
  }

  lemma LastGrows(job: Job, records: seq<Record>, i: nat, from: map<string, string>)
    requires i < |records| && from.Keys == Running(records[..i])
    requires forall s :: s in from ==> RightImage(job.(records := records[..i]), s, from[s])
    ensures var now, more := from[records[i].service := records[i].image], job.(records := records[..i + 1]);
            forall s :: s in now ==> RightImage(more, s, now[s])
  {
    var more := records[..i + 1];
    assert IsLastOf(more, i, Record(records[i].service, records[i].image));
    RunningGrows(records, i);
    forall s | s in from && s != records[i].service
      ensures exists k :: 0 <= k < |more| && IsLastOf(more, k, Record(s, from[s]))
    {
      var k :| 0 <= k < i && IsLastOf(records[..i], k, Record(s, from[s]));
      assert forall m :: k < m < i ==> more[m] == records[..i][m];
      assert IsLastOf(more, k, Record(s, from[s]));
    }
  }

  lemma RunningGrows(records: seq<Record>, i: nat)
    requires i < |records|
    ensures Running(records[..i + 1]) == Running(records[..i]) + {records[i].service}
  {
    assert forall k :: 0 <= k < i ==> records[..i + 1][k] == records[..i][k];
    assert records[..i + 1][i] == records[i];
    forall s | s in Running(records[..i]) ensures s in Running(records[..i + 1]) {
      var k :| 0 <= k < i && records[..i][k].service == s;
      assert records[..i + 1][k].service == s;
    }
  }
}
