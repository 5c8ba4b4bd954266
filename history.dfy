/**
 * The breadcrumb navigation stack of the reader (src/utils/store/history.store.ts).
 *
 * The stack is a list of named locations, home first and the current page last.
 * Every operation first calls the external hash history and then publishes a new
 * stack. The `history` library is not part of this model: `createLocation` is a
 * function the store is constructed with, and the calls made on the hash history
 * are recorded in a ghost log.
 */
module History {
  import opened Wrappers

  /** A location descriptor as accepted by the `history` library (path, query, fragment). */
  datatype Descriptor = Descriptor(pathname: Option<string>, search: Option<string>, hash: Option<string>)

  /** A descriptor with the breadcrumb label it should be shown under. */
  datatype NamedDescriptor = NamedDescriptor(descriptor: Descriptor, name: string)

  /** A location as produced by `createLocation`. */
  datatype Location = Location(pathname: string, search: string, hash: string)

  /** One breadcrumb entry: a location plus its label. */
  datatype NamedLocation = NamedLocation(location: Location, name: string)

  /** What a call on the hash history was given. */
  datatype Target =
    | ToDescriptor(named: NamedDescriptor)
    | ToPath(path: Descriptor)
    | ToEntry(entry: NamedLocation)

  /** One call on the external hash history. */
  datatype HistoryCall = HistoryPush(target: Target) | HistoryReplace(target: Target)

  /** The `history` library's `createLocation`, left uninterpreted. */
  type LocationFactory = Descriptor -> Location

  const HomePath: string := "/"
  const HomeLabel: string := "搜索"
  const HomeDescriptor: Descriptor := Descriptor(Some(HomePath), None, None)

  /** The home entry: the root path labelled with the search page's name. */
  function Home(mk: LocationFactory): NamedLocation {
    NamedLocation(mk(HomeDescriptor), HomeLabel)
  }

  /** `{ ...createLocation(path), name: path.name }` */
  function EntryFor(mk: LocationFactory, path: NamedDescriptor): NamedLocation {
    NamedLocation(mk(path.descriptor), path.name)
  }

  /** The array left behind by JavaScript's `pop()`, which does nothing on an empty array. */
  function DropLast<T>(s: seq<T>): (r: seq<T>)
    ensures |s| > 0 ==> |r| == |s| - 1
    ensures r <= s
  {
    if |s| == 0 then [] else s[..|s| - 1]
  }

  /** The stack after `push`: one more entry, on top of the old ones. */
  function Pushed(s: seq<NamedLocation>, e: NamedLocation): (r: seq<NamedLocation>)
    ensures |r| == |s| + 1
    ensures s <= r
    ensures r[|s|] == e
  {
    s + [e]
  }

  /** The stack after the tail is popped and `e` appended (`replace` and the active-location setter). */
  function Retopped(s: seq<NamedLocation>, e: NamedLocation): (r: seq<NamedLocation>)
    ensures |s| > 0 ==> |r| == |s|
    ensures |s| == 0 ==> r == [e]
    ensures forall k :: 0 <= k < |r| - 1 ==> r[k] == s[k]
    ensures r[|r| - 1] == e
  {
    DropLast(s) + [e]
  }

  /** The stack after `goIndex(i)`: `slice(0, i + 1)`. */
  function Truncated(s: seq<NamedLocation>, i: nat): (r: seq<NamedLocation>)
    requires i < |s|
    ensures |r| == i + 1
    ensures r <= s
    ensures r[i] == s[i]
  {
    s[..i + 1]
  }

  /** The projection of `useActiveLocation`: the tail, `undefined` on an empty array. */
  function Active(s: seq<NamedLocation>): (r: Option<NamedLocation>)
    ensures r.Some? <==> |s| > 0
    ensures r.Some? ==> r.value == s[|s| - 1]
  {
    if |s| == 0 then None else Some(s[|s| - 1])
  }

  // The projection and the write-back form a lens on the tail of the stack.

  lemma ActiveAfterRetop(s: seq<NamedLocation>, e: NamedLocation)
    ensures Active(Retopped(s, e)) == Some(e)
  {
  }

  lemma RetopActive(s: seq<NamedLocation>)
    requires Active(s).Some?
    ensures Retopped(s, Active(s).value) == s
  {
  }

  lemma RetopTwice(s: seq<NamedLocation>, e: NamedLocation, f: NamedLocation)
    ensures Retopped(Retopped(s, e), f) == Retopped(s, f)
  {
  }

  /** The operations the rendering layer invokes on the store. */
  datatype Op =
    | OpPush(path: NamedDescriptor)
    | OpReplace(path: NamedDescriptor)
    | OpGoHome
    | OpGoIndex(index: nat)
    | OpSetActive(entry: NamedLocation)

  /** What `goIndex` assumes of its caller: an index of the current stack. */
  predicate InRange(s: seq<NamedLocation>, op: Op) {
    op.OpGoIndex? ==> op.index < |s|
  }

  function Apply(mk: LocationFactory, s: seq<NamedLocation>, op: Op): seq<NamedLocation>
    requires InRange(s, op)
  {
    match op
    case OpPush(p) => Pushed(s, EntryFor(mk, p))
    case OpReplace(p) => Retopped(s, EntryFor(mk, p))
    case OpGoHome => [Home(mk)]
    case OpGoIndex(i) => Truncated(s, i)
    case OpSetActive(e) => Retopped(s, e)
  }

  /** Every `goIndex` of the run is given an index of the stack it is applied to. */
  ghost predicate Defined(mk: LocationFactory, s: seq<NamedLocation>, ops: seq<Op>)
    decreases |ops|
  {
    |ops| == 0 || (InRange(s, ops[0]) && Defined(mk, Apply(mk, s, ops[0]), ops[1..]))
  }

  function Run(mk: LocationFactory, s: seq<NamedLocation>, ops: seq<Op>): seq<NamedLocation>
    requires Defined(mk, s, ops)
    decreases |ops|
  {
    if |ops| == 0 then s else Run(mk, Apply(mk, s, ops[0]), ops[1..])
  }

  /** A run that never replaces the tail of a stack whose only entry is home. */
  ghost predicate HomeSafe(mk: LocationFactory, s: seq<NamedLocation>, ops: seq<Op>)
    decreases |ops|
  {
    |ops| == 0 ||
    (InRange(s, ops[0]) &&
     ((ops[0].OpReplace? || ops[0].OpSetActive?) ==> |s| >= 2) &&
     HomeSafe(mk, Apply(mk, s, ops[0]), ops[1..]))
  }

  lemma GoHomeIdempotent(mk: LocationFactory, s: seq<NamedLocation>)
    ensures Apply(mk, s, OpGoHome) == [Home(mk)]
    ensures Apply(mk, Apply(mk, s, OpGoHome), OpGoHome) == Apply(mk, s, OpGoHome)
  {
  }

  /** Home stays at index 0 along any run that does not replace a lone home entry. */
  lemma {:induction false} HomeStaysFirst(mk: LocationFactory, s: seq<NamedLocation>, ops: seq<Op>)
    requires |s| > 0 && s[0] == Home(mk)
    requires HomeSafe(mk, s, ops)
    ensures Defined(mk, s, ops)
    ensures |Run(mk, s, ops)| > 0 && Run(mk, s, ops)[0] == Home(mk)
    decreases |ops|
  {
    if |ops| > 0 {
      var t := Apply(mk, s, ops[0]);
      assert |t| > 0 && t[0] == Home(mk);
      HomeStaysFirst(mk, t, ops[1..]);
    }
  }

  /** Without the guard the invariant fails: `replace` on the lone home entry removes home. */
  lemma ReplaceRemovesLoneHome(mk: LocationFactory, path: NamedDescriptor)
    requires path.name != HomeLabel
    ensures Apply(mk, [Home(mk)], OpReplace(path)) == [EntryFor(mk, path)]
    ensures Apply(mk, [Home(mk)], OpReplace(path))[0] != Home(mk)
  {
  }

  /** The active-location setter does the same to a lone home entry. */
  lemma SetActiveRemovesLoneHome(mk: LocationFactory, e: NamedLocation)
    requires e != Home(mk)
    ensures Apply(mk, [Home(mk)], OpSetActive(e)) == [e]
    ensures Apply(mk, [Home(mk)], OpSetActive(e))[0] != Home(mk)
  {
  }

  /** Running `a` and then `b` is running `a + b`. */
  lemma {:induction false} RunAppend(mk: LocationFactory, s: seq<NamedLocation>, a: seq<Op>, b: seq<Op>)
    requires Defined(mk, s, a)
    requires Defined(mk, Run(mk, s, a), b)
    ensures Defined(mk, s, a + b)
    ensures Run(mk, s, a + b) == Run(mk, Run(mk, s, a), b)
    decreases |a|
  {
    if |a| > 0 {
      assert (a + b)[0] == a[0];
      assert (a + b)[1..] == a[1..] + b;
      RunAppend(mk, Apply(mk, s, a[0]), a[1..], b);
    } else {
      assert a + b == b;
    }
  }

  /** A run of pushes keeps the old stack as a prefix and adds one entry per push. */
  lemma {:induction false} PushesExtend(mk: LocationFactory, s: seq<NamedLocation>, ops: seq<Op>)
    requires forall k :: 0 <= k < |ops| ==> ops[k].OpPush?
    ensures Defined(mk, s, ops)
    ensures |Run(mk, s, ops)| == |s| + |ops|
    ensures s <= Run(mk, s, ops)
    decreases |ops|
  {
    if |ops| > 0 {
      PushesExtend(mk, Apply(mk, s, ops[0]), ops[1..]);
    }
  }

  /** Following pushes with `goIndex` back to the former tail restores the former stack. */
  lemma {:induction false} PushesThenBack(mk: LocationFactory, s: seq<NamedLocation>, ops: seq<Op>)
    requires |s| > 0
    requires forall k :: 0 <= k < |ops| ==> ops[k].OpPush?
    ensures Defined(mk, s, ops + [OpGoIndex(|s| - 1)])
    ensures Run(mk, s, ops + [OpGoIndex(|s| - 1)]) == s
  {
    PushesExtend(mk, s, ops);
    var t := Run(mk, s, ops);
    var back := [OpGoIndex(|s| - 1)];
    assert back[1..] == [];
    assert Defined(mk, t, back);
    assert Run(mk, t, back) == Truncated(t, |s| - 1);
    RunAppend(mk, s, ops, back);
  }

  /** The breadcrumb walk home -> work -> chapter -> back to the work. */
  lemma {:induction false} BreadcrumbScenario(mk: LocationFactory, work: NamedDescriptor, chapter: NamedDescriptor)
    ensures Defined(mk, [Home(mk)], [OpPush(work), OpPush(chapter), OpGoIndex(1)])
    ensures Run(mk, [Home(mk)], [OpPush(work), OpPush(chapter), OpGoIndex(1)]) == [Home(mk), EntryFor(mk, work)]
  {
    var s := [Home(mk), EntryFor(mk, work)];
    PushesThenBack(mk, s, [OpPush(chapter)]);
    assert [OpPush(work), OpPush(chapter), OpGoIndex(1)] == [OpPush(work)] + ([OpPush(chapter)] + [OpGoIndex(1)]);
    RunAppend(mk, [Home(mk)], [OpPush(work)], [OpPush(chapter)] + [OpGoIndex(1)]);
  }

  /** `HistoryStore`: the stack held by the store, and the hash history it drives. */
  class HistoryStore {
    const createLocation: LocationFactory
    var data: seq<NamedLocation>
    /** The calls made on the external hash history, oldest first. */
    ghost var log: seq<HistoryCall>

    /** The stack is never empty. */
    ghost predicate Valid()
      reads this
    {
      |data| > 0
    }

    constructor (createLocation: LocationFactory)
      ensures Valid()
      ensures this.createLocation == createLocation
      ensures data == [Home(createLocation)]
      ensures data[0].location == createLocation(Descriptor(Some("/"), None, None))
      ensures data[0].name == "搜索"
      ensures log == []
    {
      this.createLocation := createLocation;
      data := [Home(createLocation)];
      log := [];
    }

    method Push(path: NamedDescriptor)
      requires Valid()
      modifies this
      ensures Valid()
      ensures data == Pushed(old(data), EntryFor(createLocation, path))
      ensures log == old(log) + [HistoryPush(ToDescriptor(path))]
    {
      log := log + [HistoryPush(ToDescriptor(path))];
      data := data + [EntryFor(createLocation, path)];
    }

    method Replace(path: NamedDescriptor)
      requires Valid()
      modifies this
      ensures Valid()
      ensures data == Retopped(old(data), EntryFor(createLocation, path))
      ensures |data| == |old(data)|
      ensures log == old(log) + [HistoryReplace(ToDescriptor(path))]
    {
      log := log + [HistoryReplace(ToDescriptor(path))];
      var rest := data[..|data| - 1];
      data := rest + [EntryFor(createLocation, path)];
    }

    method GoHome()
      requires Valid()
      modifies this
      ensures Valid()
      ensures data == [Home(createLocation)]
      ensures log == old(log) + [HistoryPush(ToPath(HomeDescriptor))]
    {
      log := log + [HistoryPush(ToPath(HomeDescriptor))];
      data := [Home(createLocation)];
    }

    method GoIndex(index: nat)
      requires Valid()
      requires index < |data|
      modifies this
      ensures Valid()
      ensures data == Truncated(old(data), index)
      ensures data[index] == old(data)[index]
      ensures log == old(log) + [HistoryPush(ToEntry(old(data)[index]))]
    {
      log := log + [HistoryPush(ToEntry(data[index]))];
      data := data[..index + 1];
    }

    /** The setter of `useActiveLocation`: unproject the new tail into the stack. */
    method SetActive(value: NamedLocation)
      requires Valid()
      modifies this
      ensures Valid()
      ensures data == Retopped(old(data), value)
      ensures |data| == |old(data)|
      ensures Active(data) == Some(value)
      ensures log == old(log) + [HistoryReplace(ToEntry(value))]
    {
      log := log + [HistoryReplace(ToEntry(value))];
      var rest := data[..|data| - 1];
      data := rest + [value];
    }
  }
}
