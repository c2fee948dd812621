/** The handle pool: the global object `pool` that maps the identifiers `generateUUID` draws to the
    host objects the tools hand out, and `addToPool`, which draws identifiers until one is free. */
module HandlePool {
  import opened Wrappers
  import opened JsValues
  import opened Uuid
  import opened Serialiser

  /** The nibbles of one `generateUUID` call, one per placeholder of the template. */
  type Draw = s: seq<Nibble> | |s| == 31 witness seq(31, _ => 0)

  /** The identifier a draw spells. */
  function IdOf(d: Draw): (id: string)
    ensures IsUuid(id)
  {
    TemplateCount();
    FillIsUuid(d);
    Fill(Template, d)
  }

  /** Some draw from call number `from` on spells an identifier outside both `keys` and `extra`. */
  ghost predicate Avoids(entropy: nat -> Draw, from: nat, keys: set<string>, extra: set<string>) {
    exists j: nat :: j >= from && IdOf(entropy(j)) !in keys && IdOf(entropy(j)) !in extra
  }

  /** From call number `from` on, the generator can serve `n` more additions to a pool holding
      `keys`: however fewer than `n` further identifiers are taken, some later call draws one that
      is free. Draws may repeat and may collide with the pool; only running out of free identifiers
      within the budget is excluded. */
  ghost predicate EnoughFresh(entropy: nat -> Draw, from: nat, keys: set<string>, n: nat) {
    forall extra: set<string> :: |extra| < n ==> Avoids(entropy, from, keys, extra)
  }

  /** After a step that drew only identifiers now in the pool and added at most one key, the
      generator can still serve one addition fewer. */
  lemma EnoughFreshLater(entropy: nat -> Draw, d0: nat, d1: nat, keys0: set<string>, added: set<string>, n: nat)
    requires d0 <= d1 && |added| <= 1 && EnoughFresh(entropy, d0, keys0, n + 1)
    requires forall k :: d0 <= k < d1 ==> IdOf(entropy(k)) in keys0 + added
    ensures EnoughFresh(entropy, d1, keys0 + added, n)
  {
    forall extra: set<string> | |extra| < n
      ensures Avoids(entropy, d1, keys0 + added, extra)
    {
      assert Avoids(entropy, d0, keys0, added + extra);
      var j: nat :| j >= d0 && IdOf(entropy(j)) !in keys0 && IdOf(entropy(j)) !in added + extra;
      assert j >= d1;
    }
  }

  /** `EnoughFreshLater` for a step that retried past identifiers in the pool and then took `id`. */
  lemma GrewFresh(entropy: nat -> Draw, d0: nat, d1: nat, keys0: set<string>, id: string, n: nat)
    requires d0 < d1 && IdOf(entropy(d1 - 1)) == id && EnoughFresh(entropy, d0, keys0, n + 1)
    requires forall k :: d0 <= k < d1 - 1 ==> IdOf(entropy(k)) in keys0
    ensures EnoughFresh(entropy, d1, keys0 + {id}, n)
  {
    EnoughFreshLater(entropy, d0, d1, keys0, {id}, n);
  }

  /** A generator that counts through sixteen identifiers, differing in their last digit. */
  function CountingEntropy(k: nat): Draw {
    seq(31, i requires 0 <= i < 31 => if i == 30 then k % 16 else 0)
  }

  /** The last digit of an identifier is the last nibble drawn. */
  lemma IdOfLast(d: Draw)
    ensures IdOf(d)[35] == HexChar(d[30])
  {
    TemplateCount();
    assert Template[35] == 'x';
    assert Fill(Template, d) == Fill(Template[..35], d[..30]) + [Replacement('x', d[30])];
  }

  /** Among pairwise distinct identifiers, more of them than a set holds, one is outside it. */
  lemma {:induction false} Pigeonhole(ids: seq<string>, taken: set<string>)
    requires forall a, b :: 0 <= a < b < |ids| ==> ids[a] != ids[b]
    requires |taken| < |ids|
    ensures exists i :: 0 <= i < |ids| && ids[i] !in taken
  {
    var last := |ids| - 1;
    if ids[last] in taken {
      Pigeonhole(ids[..last], taken - {ids[last]});
      var i :| 0 <= i < last && ids[..last][i] !in taken - {ids[last]};
      assert ids[i] !in taken;
    }
  }

  /** Generators that meet `EnoughFresh` exist: the counting one serves any pool and budget that
      together come to at most sixteen identifiers. */
  lemma CountingEnoughFresh(from: nat, keys: set<string>, n: nat)
    requires |keys| + n <= 16
    ensures EnoughFresh(CountingEntropy, from, keys, n)
  {
    var ids := seq(16, i requires 0 <= i < 16 => IdOf(CountingEntropy(from + i)));
    forall a, b | 0 <= a < b < 16 ensures ids[a] != ids[b] {
      IdOfLast(CountingEntropy(from + a));
      IdOfLast(CountingEntropy(from + b));
      assert (from + a) % 16 != (from + b) % 16;
    }
    forall extra: set<string> | |extra| < n
      ensures Avoids(CountingEntropy, from, keys, extra)
    {
      Pigeonhole(ids, keys + extra);
      var i :| 0 <= i < 16 && ids[i] !in keys + extra;
      assert IdOf(CountingEntropy(from + i)) !in keys + extra;
    }
  }

  /** `pool[String(key)]` on the pool's own entries: the object stored under the key, or None where
      the script reads `undefined`. */
  function Find<O>(entries: map<string, O>, key: Value): Option<O> {
    var k := ToPropertyKey(key);
    if k in entries then Some(entries[k]) else None
  }

  /** What `pool[String(key)]` can reach in the script: a stored object, or a method the pool
      inherits from `Object.prototype`. */
  datatype Slot<O> = Stored(obj: O) | Builtin(name: string)

  /** `pool[String(key)]` as the script evaluates it: a key the pool does not hold but
      `Object.prototype` defines reaches the inherited method. */
  function FindAsWritten<O>(entries: map<string, O>, key: Value): (r: Option<Slot<O>>)
    ensures r.None? <==> Find(entries, key).None? && !Inherited(ToPropertyKey(key))
    ensures Find(entries, key).Some? ==> r == Some(Stored(Find(entries, key).value))
  {
    var k := ToPropertyKey(key);
    if k in entries then Some(Stored(entries[k]))
    else if Inherited(k) then Some(Builtin(k))
    else None
  }

  /** The identifier generator. The clock, the page-load timer and `Math.random` are folded into
      `entropy`: call number `k` of `generateUUID` draws the nibbles `entropy(k)`. */
  class IdSource {
    const entropy: nat -> Draw
    var draws: nat

    /** The identifier call number `k` returns. */
    function Candidate(k: nat): (id: string)
      ensures IsUuid(id)
    {
      IdOf(entropy(k))
    }

    constructor (entropy: nat -> Draw)
      ensures this.entropy == entropy && draws == 0
    {
      this.entropy := entropy;
      draws := 0;
    }

    /** One call of `generateUUID`. */
    method Next() returns (id: string)
      modifies this
      ensures id == Candidate(old(draws)) && draws == old(draws) + 1
      ensures IsUuid(id)
    {
      TemplateCount();
      id := GenerateUuid(entropy(draws));
      draws := draws + 1;
    }
  }

  /** `pool`, holding host objects of type `O`. `issued` records the identifiers `Add` has returned,
      oldest first. */
  class Pool<O> {
    const ids: IdSource
    var entries: map<string, O>
    ghost var issued: seq<string>

    ghost predicate Valid()
      reads this
    {
      && (forall i, j :: 0 <= i < j < |issued| ==> issued[i] != issued[j])
      && (forall id :: id in entries <==> id in issued)
      && (forall id :: id in entries ==> IsUuid(id))
    }

    constructor (ids: IdSource)
      ensures this.ids == ids && entries == map[] && issued == []
      ensures Valid()
    {
      this.ids := ids;
      entries := map[];
      issued := [];
    }

    /** Some future draw yields an identifier the pool does not hold yet. Without it the retry loop
        of `addToPool` never ends. */
    ghost predicate CanGrow()
      reads this, ids
    {
      exists j: nat :: j >= ids.draws && ids.Candidate(j) !in entries
    }

    /** The pool as `Add` leaves it when it held `entries0` and `issued0` and the generator had made
        `draws0` calls: `obj` stored under the fresh identifier `id`, which the last call drew after
        the calls before it drew identifiers already taken. */
    ghost predicate Grew(entries0: map<string, O>, issued0: seq<string>, draws0: nat, id: string, obj: O)
      reads this, ids
    {
      && IsUuid(id) && id !in entries0
      && entries == entries0[id := obj] && issued == issued0 + [id]
      && draws0 < ids.draws && id == ids.Candidate(ids.draws - 1)
      && forall k :: draws0 <= k < ids.draws - 1 ==> ids.Candidate(k) in entries0
    }

    /** The pool after a step that pools `effect`, if anything: unchanged, generator included, when
        there is nothing to pool; grown by `Add` under the identifier `minted` otherwise. */
    ghost predicate Recorded(entries0: map<string, O>, issued0: seq<string>, draws0: nat, minted: Option<string>, effect: Option<O>)
      reads this, ids
    {
      match effect
      case None => minted.None? && entries == entries0 && issued == issued0 && ids.draws == draws0
      case Some(obj) => minted.Some? && Grew(entries0, issued0, draws0, minted.value, obj)
    }

    /** Pooling at most one object leaves a generator with room for `n + 1` more identifiers
        room for `n`: every draw the step made is now a key of the pool. */
    lemma RecordedFresh(entries0: map<string, O>, issued0: seq<string>, draws0: nat, minted: Option<string>, effect: Option<O>, n: nat)
      requires Recorded(entries0, issued0, draws0, minted, effect)
      requires EnoughFresh(ids.entropy, draws0, entries0.Keys, n + 1)
      ensures EnoughFresh(ids.entropy, ids.draws, entries.Keys, n)
    {
      if effect.None? {
        assert entries0.Keys + {} == entries.Keys;
        EnoughFreshLater(ids.entropy, draws0, ids.draws, entries0.Keys, {}, n);
      } else {
        var id := minted.value;
        assert entries.Keys == entries0.Keys + {id};
        forall k | draws0 <= k < ids.draws - 1 ensures IdOf(ids.entropy(k)) in entries0.Keys {
          assert ids.Candidate(k) in entries0;
        }
        GrewFresh(ids.entropy, draws0, ids.draws, entries0.Keys, id, n);
      }
    }

    /** `addToPool`: draw until the identifier is free, store `obj` under it and return it. */
    method Add(obj: O) returns (id: string)
      requires Valid() && CanGrow()
      modifies this, ids
      ensures Valid()
      ensures id !in old(entries)
      ensures entries == old(entries)[id := obj]
      ensures issued == old(issued) + [id]
      ensures IsUuid(id)
      ensures old(ids.draws) < ids.draws && id == ids.Candidate(ids.draws - 1)
      ensures forall k :: old(ids.draws) <= k < ids.draws - 1 ==> ids.Candidate(k) in old(entries)
      ensures Grew(old(entries), old(issued), old(ids.draws), id, obj)
    {
      id := DrawFree();
      entries := entries[id := obj];
      issued := issued + [id];
    }

    /** The retry loop of `addToPool`: the first identifier drawn that the pool does not hold. */
    method DrawFree() returns (id: string)
      requires CanGrow()
      modifies ids
      ensures id !in entries && IsUuid(id)
      ensures old(ids.draws) < ids.draws && id == ids.Candidate(ids.draws - 1)
      ensures forall k :: old(ids.draws) <= k < ids.draws - 1 ==> ids.Candidate(k) in entries
    {
      ghost var j: nat :| j >= ids.draws && ids.Candidate(j) !in entries;
      id := ids.Next();
      while id in entries
        invariant old(ids.draws) < ids.draws <= j + 1
        invariant id == ids.Candidate(ids.draws - 1)
        invariant forall k :: old(ids.draws) <= k < ids.draws - 1 ==> ids.Candidate(k) in entries
        decreases j + 1 - ids.draws
      {
        id := ids.Next();
      }
    }

    /** The handle lookup `Find` on this pool succeeds exactly for the identifiers `Add` has
        handed out, and then yields the object stored under a UUID. */
    lemma FindIssued(key: Value)
      requires Valid()
      ensures Find(entries, key).Some? <==> ToPropertyKey(key) in issued
      ensures Find(entries, key).Some? ==> Find(entries, key).value == entries[ToPropertyKey(key)]
      ensures Find(entries, key).Some? ==> IsUuid(ToPropertyKey(key))
    {
    }

    /** A generator with room for one or more additions leaves one free identifier now. */
    lemma EnoughFreshCanGrow(n: nat)
      requires EnoughFresh(ids.entropy, ids.draws, entries.Keys, n + 1)
      ensures CanGrow()
    {
      assert Avoids(ids.entropy, ids.draws, entries.Keys, {});
      var j: nat :| j >= ids.draws && IdOf(ids.entropy(j)) !in entries.Keys;
      assert ids.Candidate(j) !in entries;
    }
  }
}
