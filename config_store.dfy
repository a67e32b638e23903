/** The main process's configuration (src/main/config/ConfigManager.js):
    dotted-key `get` and `set` over nested plain objects, and `load`/`reset`
    that shallow-copy the defaults. Objects live in an explicit store of
    references so that the sharing the shallow copies create is visible. */
module ConfigStore {
  import opened Wrappers
  import opened Text

  /** A JSON primitive (numbers restricted to integers). */
  datatype Prim = Str(s: string) | Num(n: int) | Bool(b: bool) | Null

  /** A property value: a primitive, or a reference to an object in the store. */
  datatype Value = Leaf(prim: Prim) | Obj(ref: nat)

  type Props = map<string, Value>

  /** The objects, by reference. */
  type Heap = map<nat, Props>

  /** An entry of the configuration file: a primitive or an object of primitives. */
  datatype FileEntry = Plain(prim: Prim) | Nested(props: map<string, Prim>)

  /** JavaScript's falsy values among the modelled ones. */
  predicate Falsy(v: Value) {
    v.Leaf? && (v.prim == Str("") || v.prim == Num(0) || v.prim == Bool(false) || v.prim == Null)
  }

  /** Every reference stored in an object points into the store. */
  predicate Closed(heap: Heap) {
    forall r, k | r in heap && k in heap[r] && heap[r][k].Obj? :: heap[r][k].ref in heap
  }

  /** `next` is above every reference in use. */
  predicate Fresh(heap: Heap, next: nat) {
    forall r | r in heap :: r < next
  }

  /** `value?.[k]`: a property of an object; undefined for anything else. */
  function Prop(heap: Heap, v: Option<Value>, k: string): Option<Value> {
    if v.Some? && v.value.Obj? && v.value.ref in heap && k in heap[v.value.ref]
    then Some(heap[v.value.ref][k])
    else None
  }

  /** The value `get`'s loop ends with: `v?.[keys[0]]?.[keys[1]]...`. */
  function Lookup(heap: Heap, v: Option<Value>, keys: seq<string>): (r: Option<Value>)
    ensures keys == [] ==> r == v
    ensures keys != [] && r.Some? ==> v.Some? && v.value.Obj? && v.value.ref in heap && keys[0] in heap[v.value.ref]
    decreases |keys|
  {
    if keys == [] then v else Lookup(heap, Prop(heap, v, keys[0]), keys[1..])
  }

  /** `current[k]` as `set` reads it. */
  function Child(heap: Heap, cur: nat, k: string): Option<Value>
    requires cur in heap
  {
    if k in heap[cur] then Some(heap[cur][k]) else None
  }

  /** Whether `set` replaces `current[k]` with a new empty object. */
  predicate Replaces(heap: Heap, cur: nat, k: string)
    requires cur in heap
  {
    Child(heap, cur, k).None? || Falsy(Child(heap, cur, k).value)
  }

  /** Whether `set` moves on into the object `current[k]`. */
  predicate Descends(heap: Heap, cur: nat, k: string)
    requires cur in heap
  {
    !Replaces(heap, cur, k) && Child(heap, cur, k).value.Obj? && Child(heap, cur, k).value.ref in heap
  }

  /** The store after `obj[k] = v`. */
  function Assign(heap: Heap, obj: nat, k: string, v: Value): Heap
    requires obj in heap
  {
    heap[obj := heap[obj][k := v]]
  }

  /** The store after `current[k] = {}`, the new object being `next`. */
  function Create(heap: Heap, next: nat, cur: nat, k: string): Heap
    requires cur in heap
  {
    Assign(heap[next := map[]], cur, k, Obj(next))
  }

  /** Creating an object keeps the store closed and `next + 1` free. */
  lemma CreateKeepsStore(heap: Heap, next: nat, cur: nat, k: string)
    requires Fresh(heap, next) && cur in heap
    ensures var h := Create(heap, next, cur, k);
            (Closed(heap) ==> Closed(h)) && Fresh(h, next + 1) && next in h && h[next] == map[]
            && (forall r | r in heap :: r in h)
            && (forall r | r in h :: r in heap || r == next)
            && (forall r | r in heap && r != cur :: h[r] == heap[r])
            && h[cur] == heap[cur][k := Obj(next)]
  {
  }

  /** `set` from object `cur` along `keys`: the new store and next free
      reference, or None when the walk meets a truthy primitive (the
      assignment on it throws a TypeError in the class's strict code). A
      reference outside the store cannot occur in a closed store and is
      treated like a primitive. */
  function SetPath(heap: Heap, next: nat, cur: nat, keys: seq<string>, value: Prim): (r: Option<(Heap, nat)>)
    requires cur in heap && |keys| >= 1
    ensures r.Some? ==> next <= r.value.1 <= next + |keys| - 1
    ensures r.None? ==> |keys| >= 2
    decreases |keys|
  {
    if |keys| == 1 then Some((Assign(heap, cur, keys[0], Leaf(value)), next))
    else if Replaces(heap, cur, keys[0]) then
      SetPath(Create(heap, next, cur, keys[0]), next + 1, next, keys[1..], value)
    else if Descends(heap, cur, keys[0]) then
      SetPath(heap, next, Child(heap, cur, keys[0]).value.ref, keys[1..], value)
    else None
  }

  /** The (object, key) pairs of existing objects that `set` writes or
      follows: the walk up to the first created object. */
  function Steps(heap: Heap, cur: nat, keys: seq<string>): seq<(nat, string)>
    requires cur in heap && |keys| >= 1
    decreases |keys|
  {
    if |keys| >= 2 && Descends(heap, cur, keys[0])
    then [(cur, keys[0])] + Steps(heap, Child(heap, cur, keys[0]).value.ref, keys[1..])
    else [(cur, keys[0])]
  }

  /** `set`'s walk at segment `i`: create, descend, or throw. */
  lemma SetPathAt(heap: Heap, next: nat, cur: nat, keys: seq<string>, i: nat, value: Prim)
    requires cur in heap && i < |keys| - 1
    ensures SetPath(heap, next, cur, keys[i..], value) ==
            if Replaces(heap, cur, keys[i]) then SetPath(Create(heap, next, cur, keys[i]), next + 1, next, keys[i + 1..], value)
            else if Descends(heap, cur, keys[i]) then SetPath(heap, next, Child(heap, cur, keys[i]).value.ref, keys[i + 1..], value)
            else None
  {
    assert keys[i..][1..] == keys[i + 1..];
  }

  /** One step of `set`'s walk that creates `current[keys[i]] = {}`. */
  lemma CreateStep(heap: Heap, next: nat, cur: nat, keys: seq<string>, i: nat, value: Prim)
    requires Fresh(heap, next) && cur in heap && i < |keys| - 1 && Replaces(heap, cur, keys[i])
    ensures var h := Create(heap, next, cur, keys[i]);
            Fresh(h, next + 1) && next in h && h[next] == map[]
            && SetPath(h, next + 1, next, keys[i + 1..], value) == SetPath(heap, next, cur, keys[i..], value)
  {
    SetPathAt(heap, next, cur, keys, i, value);
    CreateKeepsStore(heap, next, cur, keys[i]);
  }

  /** One step of `set`'s walk that moves into the object `current[keys[i]]`. */
  lemma DescendStep(heap: Heap, next: nat, cur: nat, keys: seq<string>, i: nat, value: Prim)
    requires cur in heap && i < |keys| - 1 && !Replaces(heap, cur, keys[i])
    requires heap[cur][keys[i]].Obj? && heap[cur][keys[i]].ref in heap
    ensures SetPath(heap, next, heap[cur][keys[i]].ref, keys[i + 1..], value) == SetPath(heap, next, cur, keys[i..], value)
  {
    SetPathAt(heap, next, cur, keys, i, value);
  }

  /** The walk never comes back to an object it has left. */
  predicate StepsDistinct(steps: seq<(nat, string)>) {
    forall i, j | 0 <= i < j < |steps| :: steps[i].0 != steps[j].0
  }

  /** The references of a successful `set`: the existing ones stay, the
      new ones are between `next` and the new free reference, and the store
      stays closed. */
  lemma {:induction false} SetKeepsStore(heap: Heap, next: nat, cur: nat, keys: seq<string>, value: Prim)
    requires Closed(heap) && Fresh(heap, next) && cur in heap && |keys| >= 1
    requires SetPath(heap, next, cur, keys, value).Some?
    ensures var (h, n) := SetPath(heap, next, cur, keys, value).value;
            next <= n && Closed(h) && Fresh(h, n)
            && (forall r | r in heap :: r in h)
            && (forall r | r in h && r !in heap :: next <= r)
    decreases |keys|
  {
    if |keys| >= 2 {
      if Replaces(heap, cur, keys[0]) {
        CreateKeepsStore(heap, next, cur, keys[0]);
        SetKeepsStore(Create(heap, next, cur, keys[0]), next + 1, next, keys[1..], value);
      } else {
        SetKeepsStore(heap, next, Child(heap, cur, keys[0]).value.ref, keys[1..], value);
      }
    }
  }

  /** `set` touches existing objects only at the pairs of its walk: every
      other property of every existing object is kept, none is added. */
  lemma {:induction false} SetFrame(heap: Heap, next: nat, cur: nat, keys: seq<string>, value: Prim)
    requires Fresh(heap, next) && cur in heap && |keys| >= 1
    requires SetPath(heap, next, cur, keys, value).Some?
    ensures var h := SetPath(heap, next, cur, keys, value).value.0;
            forall r, k | r in heap && (r, k) !in Steps(heap, cur, keys) ::
              r in h && (k in h[r] <==> k in heap[r]) && (k in heap[r] ==> h[r][k] == heap[r][k])
    decreases |keys|
  {
    var h := SetPath(heap, next, cur, keys, value).value.0;
    var steps := Steps(heap, cur, keys);
    if |keys| >= 2 && Replaces(heap, cur, keys[0]) {
      var h1 := Create(heap, next, cur, keys[0]);
      CreateKeepsStore(heap, next, cur, keys[0]);
      SetFrame(h1, next + 1, next, keys[1..], value);
      assert Steps(h1, next, keys[1..]) == [(next, keys[1])];
      assert steps == [(cur, keys[0])];
      forall r, k | r in heap && (r, k) !in steps
        ensures r in h && (k in h[r] <==> k in heap[r]) && (k in heap[r] ==> h[r][k] == heap[r][k])
      {
        assert r != next;
        assert (r, k) !in Steps(h1, next, keys[1..]);
        assert r in h1 && (k in h1[r] <==> k in heap[r]) && (k in heap[r] ==> h1[r][k] == heap[r][k]);
      }
    } else if |keys| >= 2 && Descends(heap, cur, keys[0]) {
      var r0 := Child(heap, cur, keys[0]).value.ref;
      SetFrame(heap, next, r0, keys[1..], value);
      assert steps == [(cur, keys[0])] + Steps(heap, r0, keys[1..]);
    }
  }

  /** After a successful `set(k, v)`, `get(k)` finds `v`, provided the walk
      visits distinct objects (as in any configuration built from JSON). */
  lemma {:induction false} GetAfterSet(heap: Heap, next: nat, cur: nat, keys: seq<string>, value: Prim)
    requires Fresh(heap, next) && cur in heap && |keys| >= 1
    requires StepsDistinct(Steps(heap, cur, keys))
    requires SetPath(heap, next, cur, keys, value).Some?
    ensures Lookup(SetPath(heap, next, cur, keys, value).value.0, Some(Obj(cur)), keys) == Some(Leaf(value))
    decreases |keys|
  {
    var h := SetPath(heap, next, cur, keys, value).value.0;
    if |keys| == 1 {
      assert Prop(h, Some(Obj(cur)), keys[0]) == Some(Leaf(value));
    } else if Replaces(heap, cur, keys[0]) {
      var h1 := Create(heap, next, cur, keys[0]);
      CreateKeepsStore(heap, next, cur, keys[0]);
      assert Steps(h1, next, keys[1..]) == [(next, keys[1])];
      GetAfterSet(h1, next + 1, next, keys[1..], value);
      SetFrame(h1, next + 1, next, keys[1..], value);
      assert (cur, keys[0]) !in Steps(h1, next, keys[1..]);
      assert Prop(h, Some(Obj(cur)), keys[0]) == Some(Obj(next));
      assert Lookup(h, Some(Obj(cur)), keys) == Lookup(h, Some(Obj(next)), keys[1..]);
    } else {
      var r := Child(heap, cur, keys[0]).value.ref;
      var steps := Steps(heap, cur, keys);
      var tail := Steps(heap, r, keys[1..]);
      assert steps == [(cur, keys[0])] + tail;
      assert StepsDistinct(tail) by {
        forall i, j | 0 <= i < j < |tail| ensures tail[i].0 != tail[j].0 {
          assert steps[i + 1] == tail[i] && steps[j + 1] == tail[j];
        }
      }
      GetAfterSet(heap, next, r, keys[1..], value);
      SetFrame(heap, next, r, keys[1..], value);
      assert (cur, keys[0]) !in tail by {
        forall i | 0 <= i < |tail| ensures tail[i].0 != cur {
          assert steps[i + 1] == tail[i] && steps[0].0 == cur;
        }
      }
      assert Prop(h, Some(Obj(cur)), keys[0]) == Some(Obj(r));
      assert Lookup(h, Some(Obj(cur)), keys) == Lookup(h, Some(Obj(r)), keys[1..]);
    }
  }

  /** A value `set` can neither descend into nor replace. */
  predicate TruthyPrim(v: Option<Value>) {
    v.Some? && v.value.Leaf? && !Falsy(v.value)
  }

  /** What `get` finds along the first `n` segments. */
  function LookupPrefix(heap: Heap, cur: nat, keys: seq<string>, n: nat): Option<Value>
    requires n <= |keys|
  {
    Lookup(heap, Some(Obj(cur)), keys[..n])
  }

  /** Looking anything up below an undefined value is undefined. */
  lemma {:induction false} LookupUndefined(heap: Heap, keys: seq<string>)
    ensures Lookup(heap, None, keys) == None
    decreases |keys|
  {
    if keys != [] {
      LookupUndefined(heap, keys[1..]);
    }
  }

  /** Looking up a prefix of length n + 1 is one step then a prefix of length n. */
  lemma LookupPrefixStep(heap: Heap, cur: nat, keys: seq<string>, n: nat)
    requires 1 <= n + 1 <= |keys|
    ensures LookupPrefix(heap, cur, keys, n + 1) == Lookup(heap, Prop(heap, Some(Obj(cur)), keys[0]), keys[1..][..n])
  {
    assert keys[..n + 1][1..] == keys[1..][..n];
  }

  /** `set` throws exactly when, before the last segment, the walk meets a
      non-empty string, a non-zero number or `true`. */
  lemma {:induction false} SetFailsOnTruthyPrimitive(heap: Heap, next: nat, cur: nat, keys: seq<string>, value: Prim)
    requires Closed(heap) && Fresh(heap, next) && cur in heap && |keys| >= 1
    ensures SetPath(heap, next, cur, keys, value).None? <==>
            exists n | 1 <= n < |keys| :: TruthyPrim(LookupPrefix(heap, cur, keys, n))
    decreases |keys|
  {
    if |keys| >= 2 {
      var v := Some(Obj(cur));
      LookupPrefixStep(heap, cur, keys, 0);
      if Replaces(heap, cur, keys[0]) {
        var h1 := Create(heap, next, cur, keys[0]);
        CreateKeepsStore(heap, next, cur, keys[0]);
        FreshWalkSucceeds(h1, next + 1, next, keys[1..], value);
        forall n | 1 <= n < |keys| ensures !TruthyPrim(LookupPrefix(heap, cur, keys, n)) {
          LookupPrefixStep(heap, cur, keys, n - 1);
          if n >= 2 {
            if Prop(heap, v, keys[0]).Some? {
              assert Falsy(Prop(heap, v, keys[0]).value);
              assert Prop(heap, Prop(heap, v, keys[0]), keys[1]) == None;
              assert keys[1..][..n - 1] == [keys[1]] + keys[2..][..n - 2];
              LookupUndefined(heap, keys[2..][..n - 2]);
            } else {
              LookupUndefined(heap, keys[1..][..n - 1]);
            }
          }
        }
      } else if Descends(heap, cur, keys[0]) {
        var r := Child(heap, cur, keys[0]).value.ref;
        SetFailsOnTruthyPrimitive(heap, next, r, keys[1..], value);
        forall n | 2 <= n < |keys|
          ensures LookupPrefix(heap, cur, keys, n) == LookupPrefix(heap, r, keys[1..], n - 1)
        {
          LookupPrefixStep(heap, cur, keys, n - 1);
        }
        if SetPath(heap, next, cur, keys, value).None? {
          var m :| 1 <= m < |keys| - 1 && TruthyPrim(LookupPrefix(heap, r, keys[1..], m));
          assert TruthyPrim(LookupPrefix(heap, cur, keys, m + 1));
        } else {
          forall n | 1 <= n < |keys| ensures !TruthyPrim(LookupPrefix(heap, cur, keys, n)) {
            if n >= 2 {
              assert !TruthyPrim(LookupPrefix(heap, r, keys[1..], n - 1));
            }
          }
        }
      } else {
        assert Child(heap, cur, keys[0]).value.Leaf?;
        assert TruthyPrim(LookupPrefix(heap, cur, keys, 1));
      }
    }
  }

  /** From a new empty object `set` always succeeds. */
  lemma {:induction false} FreshWalkSucceeds(heap: Heap, next: nat, cur: nat, keys: seq<string>, value: Prim)
    requires Fresh(heap, next) && cur in heap && heap[cur] == map[] && |keys| >= 1
    ensures SetPath(heap, next, cur, keys, value).Some?
    decreases |keys|
  {
    if |keys| >= 2 {
      CreateKeepsStore(heap, next, cur, keys[0]);
      FreshWalkSucceeds(Create(heap, next, cur, keys[0]), next + 1, next, keys[1..], value);
    }
  }

  /** For a missing (or falsy) first segment `set` builds a chain of new
      objects `next`, `next + 1`, ..., one per remaining intermediate
      segment, each holding exactly the following segment. */
  lemma {:induction false} SetBuildsChain(heap: Heap, next: nat, cur: nat, keys: seq<string>, value: Prim)
    requires Fresh(heap, next) && cur in heap && |keys| >= 2
    requires Replaces(heap, cur, keys[0])
    ensures SetPath(heap, next, cur, keys, value).Some?
    ensures SetPath(heap, next, cur, keys, value).value.1 == next + |keys| - 1
    ensures Chain(SetPath(heap, next, cur, keys, value).value.0, cur, next, keys, value)
    decreases |keys|
  {
    ChainStart(heap, next, cur, keys, value);
    var h1 := Create(heap, next, cur, keys[0]);
    CreateKeepsStore(heap, next, cur, keys[0]);
    var h := SetPath(heap, next, cur, keys, value).value.0;
    if |keys| >= 3 {
      SetBuildsChain(h1, next + 1, next, keys[1..], value);
      ChainExtends(h, cur, next, keys, value);
    } else {
      assert ChainLink(h[next], keys, next, next, value);
    }
  }

  /** The first step of a walk that creates: `cur[keys[0]]` is the new
      object `next`, which ends up holding exactly `keys[1]`. */
  lemma ChainStart(heap: Heap, next: nat, cur: nat, keys: seq<string>, value: Prim)
    requires Fresh(heap, next) && cur in heap && |keys| >= 2
    requires Replaces(heap, cur, keys[0])
    ensures var h1 := Create(heap, next, cur, keys[0]);
            SetPath(heap, next, cur, keys, value) == SetPath(h1, next + 1, next, keys[1..], value)
    ensures SetPath(heap, next, cur, keys, value).Some?
    ensures var h := SetPath(heap, next, cur, keys, value).value.0;
            cur in h && keys[0] in h[cur] && h[cur][keys[0]] == Obj(next)
            && next in h && h[next].Keys == {keys[1]}
            && h[next][keys[1]] == (if |keys| >= 3 then Obj(next + 1) else Leaf(value))
  {
    var h1 := Create(heap, next, cur, keys[0]);
    CreateKeepsStore(heap, next, cur, keys[0]);
    ChainHead(h1, next + 1, next, keys[1..], value);
    SetFrame(h1, next + 1, next, keys[1..], value);
    assert (cur, keys[0]) !in Steps(h1, next, keys[1..]);
  }

  /** The new objects `set` builds below `cur`: `cur[keys[0]]` is `next`, and
      each new object holds only the next segment. */
  predicate Chain(h: Heap, cur: nat, next: nat, keys: seq<string>, value: Prim)
    requires |keys| >= 2
  {
    cur in h && keys[0] in h[cur] && h[cur][keys[0]] == Obj(next)
    && forall r | next <= r < next + |keys| - 1 :: r in h && ChainLink(h[r], keys, next, r, value)
  }

  /** A chain from `next` whose head holds segment 1 extends to a chain from `cur`. */
  lemma ChainExtends(h: Heap, cur: nat, next: nat, keys: seq<string>, value: Prim)
    requires |keys| >= 3
    requires cur in h && keys[0] in h[cur] && h[cur][keys[0]] == Obj(next)
    requires next in h && h[next].Keys == {keys[1]} && h[next][keys[1]] == Obj(next + 1)
    requires Chain(h, next, next + 1, keys[1..], value)
    ensures Chain(h, cur, next, keys, value)
  {
    forall r | next + 1 <= r < next + |keys| - 1 ensures r in h && ChainLink(h[r], keys, next, r, value) {
      assert ChainLink(h[r], keys[1..], next + 1, r, value);
      assert keys[1..][r - (next + 1) + 1] == keys[r - next + 1];
    }
  }

  /** From a new empty object, `set` leaves that object holding exactly the
      first segment: the value itself, or the next new object. */
  lemma ChainHead(heap: Heap, next: nat, cur: nat, keys: seq<string>, value: Prim)
    requires Fresh(heap, next) && cur in heap && heap[cur] == map[] && |keys| >= 1
    ensures SetPath(heap, next, cur, keys, value).Some?
    ensures var h := SetPath(heap, next, cur, keys, value).value.0;
            cur in h && h[cur].Keys == {keys[0]}
            && h[cur][keys[0]] == (if |keys| >= 2 then Obj(next) else Leaf(value))
  {
    FreshWalkSucceeds(heap, next, cur, keys, value);
    var h := SetPath(heap, next, cur, keys, value).value.0;
    if |keys| >= 2 {
      var h1 := Create(heap, next, cur, keys[0]);
      CreateKeepsStore(heap, next, cur, keys[0]);
      SetFrame(h1, next + 1, next, keys[1..], value);
      assert Steps(h1, next, keys[1..]) == [(next, keys[1])];
      assert h1[cur] == map[keys[0] := Obj(next)];
      assert cur != next;
      forall k ensures k in h[cur] <==> k in h1[cur] {
        assert (cur, k) !in Steps(h1, next, keys[1..]);
      }
      assert (cur, keys[0]) !in Steps(h1, next, keys[1..]);
    }
  }

  /** The `i`-th new object of the chain: it holds only segment `i + 1`,
      pointing at the next new object, or at the value for the last one. */
  predicate ChainLink(props: Props, keys: seq<string>, next: nat, r: nat, value: Prim) {
    next <= r < next + |keys| - 1
    && props.Keys == {keys[r - next + 1]}
    && props[keys[r - next + 1]] == (if r < next + |keys| - 2 then Obj(r + 1) else Leaf(value))
  }

  /** The loop of `set` over the store `heap` from object `cur`: the
      store and next free reference it leaves, or None where it throws. */
  method SetWalk(heap: Heap, next: nat, cur: nat, keys: seq<string>, value: Prim) returns (res: Option<(Heap, nat)>)
    requires Closed(heap) && Fresh(heap, next) && cur in heap && |keys| >= 1
    ensures res == SetPath(heap, next, cur, keys, value)
  {
    var h, n, current := heap, next, cur;
    var i := 0;
    ghost var created := false;
    while i < |keys| - 1
      invariant 0 <= i <= |keys| - 1
      invariant Fresh(h, n) && current in h
      invariant SetPath(h, n, current, keys[i..], value) == SetPath(heap, next, cur, keys, value)
      invariant !created ==> h == heap
      invariant created ==> h[current] == map[]
    {
      var k := keys[i];
      if Replaces(h, current, k) {
        CreateStep(h, n, current, keys, i, value);
        h := Create(h, n, current, k);
        current := n;
        n := n + 1;
        created := true;
      } else if h[current][k].Obj? {
        DescendStep(h, n, current, keys, i, value);
        current := h[current][k].ref;
      } else {
        SetPathAt(h, n, current, keys, i, value);
        return None;
      }
      i := i + 1;
    }
    assert keys[i..] == [keys[|keys| - 1]];
    res := Some((Assign(h, current, keys[|keys| - 1], Leaf(value)), n));
  }

  /** `{ ...base, ...JSON.parse(data) }`: the file's entries copied one by
      one over those of `base`; each nested entry becomes a new object
      between `next` and `after`, holding only primitives. */
  method MergeFile(base: Props, file: map<string, FileEntry>, next: nat) returns (props: Props, objects: Heap, after: nat)
    ensures next <= after && forall r :: r in objects <==> next <= r < after
    ensures forall r, k | r in objects && k in objects[r] :: objects[r][k].Leaf?
    ensures props.Keys == base.Keys + file.Keys
    ensures forall k | k in base && k !in file :: props[k] == base[k]
    ensures forall k | k in file && file[k].Plain? :: props[k] == Leaf(file[k].prim)
    ensures forall k | k in file && file[k].Nested? ::
              props[k].Obj? && props[k].ref in objects && objects[props[k].ref] == LiftProps(file[k].props)
  {
    props, objects, after := base, map[], next;
    var remaining := file.Keys;
    while remaining != {}
      invariant remaining <= file.Keys
      invariant next <= after && forall r :: r in objects <==> next <= r < after
      invariant forall r, k | r in objects && k in objects[r] :: objects[r][k].Leaf?
      invariant props.Keys == base.Keys + (file.Keys - remaining)
      invariant forall k | k in base && k !in file :: props[k] == base[k]
      invariant forall k | k in remaining && k in base :: props[k] == base[k]
      invariant forall k | k in file && k !in remaining && file[k].Plain? :: props[k] == Leaf(file[k].prim)
      invariant forall k | k in file && k !in remaining && file[k].Nested? ::
                  props[k].Obj? && props[k].ref in objects && objects[props[k].ref] == LiftProps(file[k].props)
      decreases remaining
    {
      var k :| k in remaining;
      match file[k] {
        case Plain(p) =>
          props := props[k := Leaf(p)];
        case Nested(m) =>
          objects := objects[after := LiftProps(m)];
          props := props[k := Obj(after)];
          after := after + 1;
      }
      remaining := remaining - {k};
    }
  }

  /** Adding the merged file's objects and top level keeps the store
      closed and `after + 1` free, and leaves every old object as it was. */
  lemma MergeKeepsStore(heap: Heap, next: nat, props: Props, objects: Heap, after: nat, base: nat, file: map<string, FileEntry>)
    requires Closed(heap) && Fresh(heap, next) && base in heap
    requires next <= after && forall r :: r in objects <==> next <= r < after
    requires forall r, k | r in objects && k in objects[r] :: objects[r][k].Leaf?
    requires props.Keys == heap[base].Keys + file.Keys
    requires forall k | k in heap[base] && k !in file :: props[k] == heap[base][k]
    requires forall k | k in file && file[k].Plain? :: props[k] == Leaf(file[k].prim)
    requires forall k | k in file && file[k].Nested? :: props[k].Obj? && props[k].ref in objects
    ensures var h := (heap + objects)[after := props];
            Closed(h) && Fresh(h, after + 1) && (forall r | r in heap :: r in h && h[r] == heap[r])
  {
    var h: Heap := (heap + objects)[after := props];
    forall r: nat, k: string | r in h && k in h[r] && h[r][k].Obj? ensures h[r][k].ref in h {
      if r == after {
        assert k in file ==> file[k].Nested?;
      } else if r in objects {
      }
    }
  }

  /** The `ConfigManager` object: the store, the `defaults` object and the
      current `config` object. */
  class ConfigManager {
    var heap: Heap
    var next: nat
    var defaults: nat
    var config: nat

    predicate Valid()
      reads this
    {
      Closed(heap) && Fresh(heap, next) && defaults in heap && config in heap
    }

    /** The defaults: a `window` object of 1400 by 900, quality "ultra",
        scale "4" and theme "dark"; then `load`. */
    constructor(file: Option<map<string, FileEntry>>)
      ensures Valid()
      ensures heap[defaults] == DefaultProps(0)
      ensures defaults == 1 && 0 in heap
      ensures heap[0] == WindowDefaults()
      ensures file.None? ==> heap[config] == heap[defaults]
      ensures file.Some? ==> forall k | k in file.value && file.value[k].Nested? ::
                k in heap[config] && heap[config][k].Obj? && heap[config][k].ref > 2
                && heap[config][k].ref in heap && heap[heap[config][k].ref] == LiftProps(file.value[k].props)
    {
      heap := map[0 := WindowDefaults(), 1 := DefaultProps(0), 2 := map[]];
      next := 3;
      defaults := 1;
      config := 2;
      new;
      Load(file);
    }

    /** `get`: walks `config` along the dotted key; an undefined result
        gives `defaultValue`. */
    method Get(key: string, defaultValue: Value) returns (r: Value)
      requires Valid()
      ensures r == Lookup(heap, Some(Obj(config)), Split(key, '.')).GetOr(defaultValue)
    {
      var keys := Split(key, '.');
      var value: Option<Value> := Some(Obj(config));
      var i := 0;
      while i < |keys|
        invariant 0 <= i <= |keys|
        invariant Lookup(heap, value, keys[i..]) == Lookup(heap, Some(Obj(config)), keys)
      {
        assert keys[i..][1..] == keys[i + 1..];
        value := Prop(heap, value, keys[i]);
        i := i + 1;
      }
      r := value.GetOr(defaultValue);
    }

    /** `set`: walks to the parent of the last segment, replacing missing
        or falsy segments with new empty objects, then assigns the value.
        Returns false where the source throws. */
    method Set(key: string, value: Prim) returns (ok: bool)
      requires Valid()
      modifies this
      ensures Valid()
      ensures defaults == old(defaults) && config == old(config)
      ensures var res := SetPath(old(heap), old(next), old(config), Split(key, '.'), value);
              (ok <==> res.Some?)
              && (res.Some? ==> heap == res.value.0 && next == res.value.1)
              && (res.None? ==> heap == old(heap) && next == old(next))
    {
      var keys := Split(key, '.');
      var res := SetWalk(heap, next, config, keys, value);
      if res.None? {
        return false;
      }
      SetKeepsStore(heap, next, config, keys, value);
      heap, next := res.value.0, res.value.1;
      ok := true;
    }

    /** `getAll`: a copy of the top level; nested objects are the stored ones. */
    method GetAll() returns (r: Props)
      requires Valid()
      ensures r == heap[config]
    {
      r := heap[config];
    }

    /** `reset`: `config` becomes a new shallow copy of `defaults`. */
    method Reset()
      requires Valid()
      modifies this
      ensures Valid()
      ensures defaults == old(defaults) && config == old(next) && next == old(next) + 1
      ensures heap == old(heap)[config := old(heap)[defaults]]
    {
      heap := heap[next := heap[defaults]];
      config := next;
      next := next + 1;
    }

    /** The default-merge of `load`: the file's top-level entries over a
        shallow copy of the defaults (its nested objects are new ones); when
        the file is missing or unreadable, exactly the copy of the defaults. */
    method Load(file: Option<map<string, FileEntry>>)
      requires Valid()
      modifies this
      ensures Valid()
      ensures defaults == old(defaults) && config !in old(heap)
      ensures forall r | r in old(heap) :: r in heap && heap[r] == old(heap)[r]
      ensures file.None? ==> heap[config] == heap[defaults]
      ensures file.Some? ==> heap[config].Keys == heap[defaults].Keys + file.value.Keys
      ensures file.Some? ==> forall k | k in heap[defaults] && k !in file.value :: heap[config][k] == heap[defaults][k]
      ensures file.Some? ==> forall k | k in file.value && file.value[k].Plain? :: heap[config][k] == Leaf(file.value[k].prim)
      ensures file.Some? ==> forall k | k in file.value && file.value[k].Nested? ::
                heap[config][k].Obj? && heap[config][k].ref !in old(heap)
                && heap[config][k].ref in heap && heap[heap[config][k].ref] == LiftProps(file.value[k].props)
    {
      var props := heap[defaults];
      if file.Some? {
        var objects, after;
        props, objects, after := MergeFile(props, file.value, next);
        MergeKeepsStore(heap, next, props, objects, after, defaults, file.value);
        heap, next := heap + objects, after;
      }
      heap := heap[next := props];
      config := next;
      next := next + 1;
    }
  }

  /** An object of primitives as stored properties. */
  function LiftProps(m: map<string, Prim>): (p: Props)
    ensures p.Keys == m.Keys && forall k | k in p :: p[k] == Leaf(m[k])
  {
    map k | k in m :: Leaf(m[k])
  }

  function WindowDefaults(): Props {
    map["width" := Leaf(Num(1400)), "height" := Leaf(Num(900))]
  }

  function DefaultProps(window: nat): Props {
    map["window" := Obj(window), "defaultQuality" := Leaf(Str("ultra")),
        "defaultScale" := Leaf(Str("4")), "theme" := Leaf(Str("dark"))]
  }

  /** "window.width" splits into its two segments. */
  lemma WindowWidthKey()
    ensures Split("window.width", '.') == ["window", "width"]
  {
    assert Join(["window", "width"], '.') == "window.width";
    SplitJoin(["window", "width"], '.');
  }

  /** `set('window.width', w)` on a config whose `window` is the object
      `win` writes into `win` and nowhere else. */
  lemma SetWindowWidth(h: Heap, next: nat, config: nat, win: nat, width: int)
    requires config in h && win in h && "window" in h[config] && h[config]["window"] == Obj(win)
    ensures SetPath(h, next, config, ["window", "width"], Num(width)) == Some((Assign(h, win, "width", Leaf(Num(width))), next))
  {
    assert Descends(h, config, "window");
    assert ["window", "width"][1..] == ["width"];
  }

  /** `get('window.width')` on a config whose `window` is the object `win`. */
  lemma GetWindowWidth(h: Heap, config: nat, win: nat)
    requires config in h && win in h && "window" in h[config] && h[config]["window"] == Obj(win)
    requires "width" in h[win]
    ensures Lookup(h, Some(Obj(config)), ["window", "width"]) == Some(h[win]["width"])
  {
    assert ["window", "width"][1..] == ["width"];
    assert ["width"][1..] == [];
  }

  /** `set('window.width', 1600)` followed by `reset` and
      `get('window.width')`, on a manager whose config holds its `window`
      in object `win` and whose defaults hold theirs in object 0: the edit
      survives the reset exactly when the two objects are the same. */
  method EditWidthThenReset(c: ConfigManager, win: nat) returns (width: Value)
    requires c.Valid() && c.defaults == 1 && 0 in c.heap && win in c.heap
    requires "window" in c.heap[c.config] && c.heap[c.config]["window"] == Obj(win)
    requires "window" in c.heap[1] && c.heap[1]["window"] == Obj(0) && "width" in c.heap[0]
    requires win == 0 || win > 1
    modifies c
    ensures width == if win == 0 then Leaf(Num(1600)) else old(c.heap[0]["width"])
  {
    WindowWidthKey();
    ghost var h0 := c.heap;
    SetWindowWidth(c.heap, c.next, c.config, win, 1600);
    var ok := c.Set("window.width", Num(1600));
    assert c.heap == Assign(h0, win, "width", Leaf(Num(1600)));
    assert c.heap[1]["window"] == Obj(0);
    assert c.heap[0]["width"] == if win == 0 then Leaf(Num(1600)) else h0[0]["width"];
    c.Reset();
    GetWindowWidth(c.heap, c.config, 0);
    width := c.Get("window.width", Leaf(Null));
  }

  /** Without a configuration file, `config` and `defaults` share the
      `window` object: after `set('window.width', 1600)` even `reset`
      keeps the new width, because the defaults were changed too. */
  method WindowEditSurvivesReset() returns (width: Value)
    ensures width == Leaf(Num(1600))
  {
    var c := new ConfigManager(None);
    width := EditWidthThenReset(c, 0);
  }

  /** With a file holding its own `window` object the defaults stay intact:
      after the same edit, `reset` brings back 1400. */
  method WindowEditWithFileUndoneByReset() returns (width: Value)
    ensures width == Leaf(Num(1400))
  {
    var file := map["window" := Nested(map["width" := Num(1280), "height" := Num(720)])];
    var c := new ConfigManager(Some(file));
    assert "window" in file;
    width := EditWidthThenReset(c, c.heap[c.config]["window"].ref);
  }
}
