/** Core/Helpers/CollectionExtensions.cs: clearing a collection after disposing
    each element that is IDisposable. A collection is its enumeration (a sequence;
    for a dictionary, its values in enumeration order), and `asDisposable` is the
    run-time test `element is IDisposable`. Clear() empties the collection in
    place; here the method returns the emptied collection for the owner to store. */
module CollectionExtensions {
  import opened Common
  import Dict
  import opened Raylib
  import opened Resources
  import opened Entities
  import opened Interfaces

  /** The object behind a disposable. */
  function Target(d: Disposable): object {
    match d
    case TextureDisposable(t) => t
    case ModelDisposable(m) => m
    case WorldDisposable(w) => w
  }

  /** The objects of the collection that are disposable. */
  function Targets<T>(items: seq<T>, asDisposable: T -> Option<Disposable>): set<object> {
    set i | 0 <= i < |items| && asDisposable(items[i]).Some? :: Target(asDisposable(items[i]).value)
  }

  /** The worlds among them: disposing a world empties its chunk set. */
  function WorldsIn<T>(items: seq<T>, asDisposable: T -> Option<Disposable>): set<WorldEntity> {
    set i | 0 <= i < |items| && asDisposable(items[i]).Some? && asDisposable(items[i]).value.WorldDisposable?
      :: asDisposable(items[i]).value.world
  }

  /** Element k is a world that already occurs earlier in the collection: by the time
      it is reached, that world has been disposed and has no chunks left. */
  predicate Seen<T>(items: seq<T>, k: nat, asDisposable: T -> Option<Disposable>)
    requires k < |items|
  {
    var d := asDisposable(items[k]);
    d.Some? && d.value.WorldDisposable? && d.value.world in WorldsIn(items[..k], asDisposable)
  }

  /** The object disposing element k depends on, if any. */
  function ItemFootprint<T>(items: seq<T>, k: nat, asDisposable: T -> Option<Disposable>): set<object>
    requires k < |items|
  {
    var d := asDisposable(items[k]);
    if d.Some? && !Seen(items, k, asDisposable) then {Target(d.value)} else {}
  }

  /** The objects disposing elements i.. depends on. */
  function SuffixFootprint<T>(items: seq<T>, i: nat, asDisposable: T -> Option<Disposable>): set<object> {
    set k | i <= k < |items| && asDisposable(items[k]).Some? && !Seen(items, k, asDisposable) :: Target(asDisposable(items[k]).value)
  }

  /** A world element knows its chunk models, and they are among `ms`. */
  ghost predicate ItemReady<T>(items: seq<T>, k: nat, asDisposable: T -> Option<Disposable>, ms: set<ModelResource>)
    requires k < |items|
    reads ItemFootprint(items, k, asDisposable)
  {
    var d := asDisposable(items[k]);
    d.Some? && d.value.WorldDisposable? && !Seen(items, k, asDisposable) ==>
      d.value.world.Valid() && d.value.world.models <= ms
  }

  /** Every world among elements i.. is ready. */
  ghost predicate ReadyFrom<T>(items: seq<T>, i: nat, asDisposable: T -> Option<Disposable>, ms: set<ModelResource>)
    reads SuffixFootprint(items, i, asDisposable)
  {
    forall k :: i <= k < |items| ==>
      assert ItemFootprint(items, k, asDisposable) <= SuffixFootprint(items, i, asDisposable);
      ItemReady(items, k, asDisposable, ms)
  }

  /** The calls disposing element k makes: its Dispose calls, unless it is not
      disposable or is a world disposed earlier. */
  ghost function ItemCalls<T>(items: seq<T>, k: nat, asDisposable: T -> Option<Disposable>, ms: set<ModelResource>): seq<GpuCall>
    requires k < |items| && ItemReady(items, k, asDisposable, ms)
    reads ItemFootprint(items, k, asDisposable), ms
  {
    var d := asDisposable(items[k]);
    if d.None? || Seen(items, k, asDisposable) then [] else DisposeCalls(d.value)
  }

  /** The calls disposing elements i.. makes, in order. */
  ghost function ClearCalls<T>(items: seq<T>, i: nat, asDisposable: T -> Option<Disposable>, ms: set<ModelResource>): seq<GpuCall>
    requires i <= |items| && ReadyFrom(items, i, asDisposable, ms)
    reads SuffixFootprint(items, i, asDisposable), ms
    decreases |items| - i
  {
    if i == |items| then []
    else
      assert ItemFootprint(items, i, asDisposable) <= SuffixFootprint(items, i, asDisposable);
      assert SuffixFootprint(items, i + 1, asDisposable) <= SuffixFootprint(items, i, asDisposable);
      ItemCalls(items, i, asDisposable, ms) + ClearCalls(items, i + 1, asDisposable, ms)
  }

  /** ClearWithDispose(ICollection): every disposable element is disposed, in
      enumeration order, and then the collection is empty. Only the worlds' chunk sets
      and the device change. */
  method ClearWithDispose<T>(items: seq<T>, asDisposable: T -> Option<Disposable>, ghost ms: set<ModelResource>, dev: Device)
    returns (emptied: seq<T>)
    requires ReadyFrom(items, 0, asDisposable, ms)
    requires forall k :: 0 <= k < |items| && asDisposable(items[k]).Some? ==> allocated(Target(asDisposable(items[k]).value))
    modifies WorldsIn(items, asDisposable)`chunks, dev
    ensures emptied == []
    ensures dev.calls == old(dev.calls) + old(ClearCalls(items, 0, asDisposable, ms))
    ensures forall w :: w in WorldsIn(items, asDisposable) ==> w.chunks == [] && w.Valid()
    ensures dev.Env() == old(dev.Env()) && dev.nextHandle == old(dev.nextHandle)
  {
    var i := 0;
    while i < |items|
      invariant 0 <= i <= |items|
      invariant ReadyFrom(items, i, asDisposable, ms)
      invariant old(dev.calls) + old(ClearCalls(items, 0, asDisposable, ms)) == dev.calls + ClearCalls(items, i, asDisposable, ms)
      invariant forall w :: w in WorldsIn(items[..i], asDisposable) ==> w.chunks == []
      invariant dev.Env() == old(dev.Env()) && dev.nextHandle == old(dev.nextHandle)
    {
      ghost var item := ItemCalls(items, i, asDisposable, ms);
      ghost var rest := ClearCalls(items, i + 1, asDisposable, ms);
      ghost var before := dev.calls;
      DisposeItem(items, i, asDisposable, ms, dev);
      AppendAssoc(before, item, rest);
      i := i + 1;
    }
    assert items[..i] == items;
    emptied := [];
  }

  /** One step of the loop: element i is disposed if it is disposable, and what disposing
      the later elements will do is unchanged. */
  method DisposeItem<T>(items: seq<T>, i: nat, asDisposable: T -> Option<Disposable>, ghost ms: set<ModelResource>, dev: Device)
    requires i < |items| && ReadyFrom(items, i, asDisposable, ms)
    requires forall k :: 0 <= k < |items| && asDisposable(items[k]).Some? ==> allocated(Target(asDisposable(items[k]).value))
    requires forall w :: w in WorldsIn(items[..i], asDisposable) ==> w.chunks == []
    modifies WorldsIn(items, asDisposable)`chunks, dev
    ensures dev.calls == old(dev.calls) + old(ItemCalls(items, i, asDisposable, ms))
    ensures forall w :: w in WorldsIn(items[..i + 1], asDisposable) ==> w.chunks == []
    ensures ReadyFrom(items, i + 1, asDisposable, ms)
    ensures ClearCalls(items, i + 1, asDisposable, ms) == old(ClearCalls(items, i + 1, asDisposable, ms))
    ensures dev.Env() == old(dev.Env()) && dev.nextHandle == old(dev.nextHandle)
  {
    var d := asDisposable(items[i]);
    if d.Some? && d.value.WorldDisposable? {
      DisposeWorldItem(items, i, asDisposable, ms, dev);
    } else {
      DisposeOtherItem(items, i, asDisposable, ms, dev);
    }
  }

  /** DisposeItem for a world element. */
  method DisposeWorldItem<T>(items: seq<T>, i: nat, asDisposable: T -> Option<Disposable>, ghost ms: set<ModelResource>, dev: Device)
    requires i < |items| && ReadyFrom(items, i, asDisposable, ms)
    requires forall k :: 0 <= k < |items| && asDisposable(items[k]).Some? ==> allocated(Target(asDisposable(items[k]).value))
    requires forall w :: w in WorldsIn(items[..i], asDisposable) ==> w.chunks == []
    requires asDisposable(items[i]).Some? && asDisposable(items[i]).value.WorldDisposable?
    modifies WorldsIn(items, asDisposable)`chunks, dev
    ensures dev.calls == old(dev.calls) + old(ItemCalls(items, i, asDisposable, ms))
    ensures forall w :: w in WorldsIn(items[..i + 1], asDisposable) ==> w.chunks == []
    ensures ReadyFrom(items, i + 1, asDisposable, ms)
    ensures ClearCalls(items, i + 1, asDisposable, ms) == old(ClearCalls(items, i + 1, asDisposable, ms))
    ensures dev.Env() == old(dev.Env()) && dev.nextHandle == old(dev.nextHandle)
  {
    var w := asDisposable(items[i]).value.world;
    assert items[..i + 1] == items[..i] + [items[i]];
    assert ItemFootprint(items, i, asDisposable) <= SuffixFootprint(items, i, asDisposable);
    assert ItemReady(items, i, asDisposable, ms);
    assert dev !in SuffixFootprint(items, i + 1, asDisposable);
    assert w in WorldsIn(items, asDisposable);
    assert w in WorldsIn(items[..i + 1], asDisposable);
    assert w !in SuffixFootprint(items, i + 1, asDisposable);
    if Seen(items, i, asDisposable) {
      assert w.chunks == [];
    }
    Dispose(WorldDisposable(w), dev);
  }

  /** DisposeItem for any other element: a texture, a model, or nothing to dispose. */
  method DisposeOtherItem<T>(items: seq<T>, i: nat, asDisposable: T -> Option<Disposable>, ghost ms: set<ModelResource>, dev: Device)
    requires i < |items| && ReadyFrom(items, i, asDisposable, ms)
    requires forall k :: 0 <= k < |items| && asDisposable(items[k]).Some? ==> allocated(Target(asDisposable(items[k]).value))
    requires forall w :: w in WorldsIn(items[..i], asDisposable) ==> w.chunks == []
    requires !(asDisposable(items[i]).Some? && asDisposable(items[i]).value.WorldDisposable?)
    modifies WorldsIn(items, asDisposable)`chunks, dev
    ensures dev.calls == old(dev.calls) + old(ItemCalls(items, i, asDisposable, ms))
    ensures forall w :: w in WorldsIn(items[..i + 1], asDisposable) ==> w.chunks == []
    ensures ReadyFrom(items, i + 1, asDisposable, ms)
    ensures ClearCalls(items, i + 1, asDisposable, ms) == old(ClearCalls(items, i + 1, asDisposable, ms))
    ensures dev.Env() == old(dev.Env()) && dev.nextHandle == old(dev.nextHandle)
  {
    var d := asDisposable(items[i]);
    assert items[..i + 1] == items[..i] + [items[i]];
    assert ItemFootprint(items, i, asDisposable) <= SuffixFootprint(items, i, asDisposable);
    assert dev !in SuffixFootprint(items, i + 1, asDisposable);
    if d.Some? {
      Dispose(d.value, dev);
    }
  }

  /** ClearWithDispose(IDictionary): the values are disposed in enumeration order, once
      per entry (a value under two keys is disposed twice); keys are never disposed. */
  method ClearValuesWithDispose<K, V>(d: Dict.Dict<K, V>, asDisposable: V -> Option<Disposable>, ghost ms: set<ModelResource>, dev: Device)
    returns (emptied: Dict.Dict<K, V>)
    requires ReadyFrom(Dict.Values(d), 0, asDisposable, ms)
    requires forall k :: 0 <= k < |d| && asDisposable(d[k].1).Some? ==> allocated(Target(asDisposable(d[k].1).value))
    modifies WorldsIn(Dict.Values(d), asDisposable)`chunks, dev
    ensures emptied == []
    ensures dev.calls == old(dev.calls) + old(ClearCalls(Dict.Values(d), 0, asDisposable, ms))
    ensures dev.Env() == old(dev.Env()) && dev.nextHandle == old(dev.nextHandle)
  {
    var _ := ClearWithDispose(Dict.Values(d), asDisposable, ms, dev);
    emptied := [];
  }

  /** A collection without disposable elements is cleared without a single call. */
  lemma {:induction false} NothingDisposable<T>(items: seq<T>, i: nat, asDisposable: T -> Option<Disposable>, ms: set<ModelResource>)
    requires i <= |items| && ReadyFrom(items, i, asDisposable, ms)
    requires forall k :: 0 <= k < |items| ==> asDisposable(items[k]).None?
    ensures ClearCalls(items, i, asDisposable, ms) == []
    decreases |items| - i
  {
    if i < |items| {
      NothingDisposable(items, i + 1, asDisposable, ms);
    }
  }

  /** The textures of a texture collection are unloaded one by one, in enumeration
      order, once per occurrence. */
  lemma {:induction false} TexturesUnloadedInOrder<T>(items: seq<T>, i: nat, asDisposable: T -> Option<Disposable>, ms: set<ModelResource>)
    requires i <= |items| && ReadyFrom(items, i, asDisposable, ms)
    requires forall k :: 0 <= k < |items| ==> asDisposable(items[k]).Some? && asDisposable(items[k]).value.TextureDisposable?
    ensures |ClearCalls(items, i, asDisposable, ms)| == |items| - i
    ensures forall k :: i <= k < |items| ==>
      ClearCalls(items, i, asDisposable, ms)[k - i] == UnloadTexture(asDisposable(items[k]).value.texture.texture)
    decreases |items| - i
  {
    if i < |items| {
      TexturesUnloadedInOrder(items, i + 1, asDisposable, ms);
    }
  }

  /** Likewise for a model collection. */
  lemma {:induction false} ModelsUnloadedInOrder<T>(items: seq<T>, i: nat, asDisposable: T -> Option<Disposable>, ms: set<ModelResource>)
    requires i <= |items| && ReadyFrom(items, i, asDisposable, ms)
    requires forall k :: 0 <= k < |items| ==> asDisposable(items[k]).Some? && asDisposable(items[k]).value.ModelDisposable?
    ensures |ClearCalls(items, i, asDisposable, ms)| == |items| - i
    ensures forall k :: i <= k < |items| ==>
      ClearCalls(items, i, asDisposable, ms)[k - i] == UnloadModel(asDisposable(items[k]).value.model.model)
    decreases |items| - i
  {
    if i < |items| {
      ModelsUnloadedInOrder(items, i + 1, asDisposable, ms);
    }
  }

  /** Everything a clear depends on is a resource or a world: the device, the scene and
      the other objects of the program are outside it. */
  lemma FootprintKinds<T>(items: seq<T>, i: nat, asDisposable: T -> Option<Disposable>)
    ensures forall o :: o in SuffixFootprint(items, i, asDisposable) ==>
      o is TextureResource || o is ModelResource || o is WorldEntity
  {
    forall o | o in SuffixFootprint(items, i, asDisposable)
      ensures o is TextureResource || o is ModelResource || o is WorldEntity
    {
      var k :| i <= k < |items| && asDisposable(items[k]).Some? && !Seen(items, k, asDisposable)
               && o == Target(asDisposable(items[k]).value);
    }
  }
}
