/** When a change of configuration can be carried out on the extension registry,
    and what the registry then holds. */
module SendStreamRegistry {
  import opened Common
  import opened HeaderExtensionMap
  import opened SendStreamSpec

  /** The id under which a type is registered, 0 for none. */
  function CurrentId(ids: Registry, t: ExtensionType): int { if t in ids then ids[t] else 0 }

  function FinalId(ids: Registry, ch: Change, t: ExtensionType): int {
    if Touched(ch, t) then IdOf(ch.to.ids, t) else CurrentId(ids, t)
  }

  function Rank(t: ExtensionType): nat {
    match t
    case AudioLevel => 0
    case AbsSendTime => 1
    case TransportSequenceNumber => 2
    case Mid => 3
    case AbsCaptureTime => 4
    case _ => 5
  }

  predicate Replaceable(t: ExtensionType) { t == AbsSendTime || t == AbsCaptureTime }

  /** The new id of `t` is valid, replaces no other id of `t` unless `t` is one
      of the absolute times, and is not the id of another extension - its new id,
      if that one has had its turn, or else the id it still has. */
  predicate Fits(ids: Registry, ch: Change, t: ExtensionType) {
    var id := IdOf(ch.to.ids, t);
    Touched(ch, t) && id != 0 ==>
      && 1 <= id <= 255
      && (Replaceable(t) || CurrentId(ids, t) == 0 || CurrentId(ids, t) == id)
      && forall u: ExtensionType | u != t ::
           id != if Rank(u) < Rank(t) then FinalId(ids, ch, u) else CurrentId(ids, u)
  }

  /** No other extension has this id. */
  predicate Free(ids: Registry, t: ExtensionType, id: int) {
    forall u: ExtensionType | u != t :: CurrentId(ids, u) != id
  }

  /** From `ids` to `r` only the id of `t` has changed. */
  predicate Only(ids: Registry, r: Registry, t: ExtensionType, id: int) {
    forall u: ExtensionType :: CurrentId(r, u) == if u == t then id else CurrentId(ids, u)
  }

  lemma InUseOrFree(ids: Registry, t: ExtensionType, id: int)
    requires id != 0
    ensures InUse(ids, id) <==> CurrentId(ids, t) == id || !Free(ids, t, id)
  {
    if InUse(ids, id) {
      var u :| u in ids && ids[u] == id;
      assert CurrentId(ids, u) == id;
    }
    if !Free(ids, t, id) {
      var u :| u != t && CurrentId(ids, u) == id;
      assert u in ids && ids[u] == id;
    }
  }

  lemma AddedSound(ids: Registry, t: ExtensionType, id: int)
    requires Sound(ids) && 1 <= id <= 255 && Free(ids, t, id)
    ensures Sound(ids[t := id]) && Only(ids, ids[t := id], t, id)
  {
    forall u | u in ids && u != t ensures ids[u] != id {
      assert CurrentId(ids, u) == ids[u];
    }
  }

  lemma RegisterExact(ids: Registry, t: ExtensionType, id: int)
    requires Sound(ids)
    ensures Register(ids, t, id).Some? <==>
            1 <= id <= 255 && (CurrentId(ids, t) == 0 || CurrentId(ids, t) == id) && Free(ids, t, id)
    ensures Register(ids, t, id).Some? ==>
              Sound(Register(ids, t, id).value) && Only(ids, Register(ids, t, id).value, t, id)
  {
    if 1 <= id <= 255 {
      InUseOrFree(ids, t, id);
      if t in ids && ids[t] == id {
        forall u: ExtensionType | u != t ensures CurrentId(ids, u) != id {
        }
      } else if Free(ids, t, id) {
        AddedSound(ids, t, id);
      }
    }
  }

  lemma DeregisterOnly(ids: Registry, t: ExtensionType)
    requires Sound(ids)
    ensures Sound(Deregister(ids, t)) && Only(ids, Deregister(ids, t), t, 0)
    ensures forall id :: Free(Deregister(ids, t), t, id) <==> Free(ids, t, id)
  {
  }

  /** One update succeeds exactly when its id fits, and changes only its type. */
  lemma UpdateExact(ids: Registry, ch: Change, t: ExtensionType)
    requires Sound(ids)
    ensures var id := IdOf(ch.to.ids, t);
            Update(ids, ch, t).Some? <==>
            (Touched(ch, t) && id != 0 ==>
               && 1 <= id <= 255
               && (Replaceable(t) || CurrentId(ids, t) == 0 || CurrentId(ids, t) == id)
               && Free(ids, t, id))
    ensures Update(ids, ch, t).Some? ==>
              Sound(Update(ids, ch, t).value) && Only(ids, Update(ids, ch, t).value, t, FinalId(ids, ch, t))
  {
    var id := IdOf(ch.to.ids, t);
    DeregisterOnly(ids, t);
    if Replaceable(t) {
      RegisterExact(Deregister(ids, t), t, id);
    } else {
      RegisterExact(ids, t, id);
    }
  }

  /** Where each extension stands when the first k have had their turn. */
  predicate Progressed(ids: Registry, ch: Change, k: nat, r: Registry) {
    forall u: ExtensionType :: CurrentId(r, u) == if Rank(u) < k then FinalId(ids, ch, u) else CurrentId(ids, u)
  }

  lemma FreeAtTurn(ids: Registry, ch: Change, t: ExtensionType, r: Registry, id: int)
    requires Progressed(ids, ch, Rank(t), r)
    ensures Free(r, t, id) <==>
            forall u: ExtensionType | u != t ::
              id != if Rank(u) < Rank(t) then FinalId(ids, ch, u) else CurrentId(ids, u)
  {
  }

  lemma TurnFits(ids: Registry, ch: Change, k: nat, r: Registry)
    requires k < 5 && Sound(ids) && Sound(r) && Progressed(ids, ch, k, r)
    ensures Update(r, ch, Turn(k)).Some? <==> Fits(ids, ch, Turn(k))
  {
    var t := Turn(k);
    assert Rank(t) == k;
    UpdateExact(r, ch, t);
    FreeAtTurn(ids, ch, t, r, IdOf(ch.to.ids, t));
  }

  lemma TurnProgresses(ids: Registry, ch: Change, k: nat, r: Registry)
    requires k < 5 && Sound(r) && Progressed(ids, ch, k, r) && Update(r, ch, Turn(k)).Some?
    ensures Sound(Update(r, ch, Turn(k)).value) && Progressed(ids, ch, k + 1, Update(r, ch, Turn(k)).value)
  {
    var t := Turn(k);
    assert Rank(t) == k;
    UpdateExact(r, ch, t);
    assert FinalId(r, ch, t) == FinalId(ids, ch, t);
    assert forall u: ExtensionType | Rank(u) == k :: u == t;
  }

  lemma {:induction false} TurnsFit(ids: Registry, ch: Change, k: nat)
    requires k <= 5 && Sound(ids)
    ensures UpdateFirst(k, ids, ch).Some? <==> forall j: nat | j < k :: Fits(ids, ch, Turn(j))
    ensures UpdateFirst(k, ids, ch).Some? ==>
              Sound(UpdateFirst(k, ids, ch).value) && Progressed(ids, ch, k, UpdateFirst(k, ids, ch).value)
  {
    if k != 0 {
      var n := k - 1;
      TurnsFit(ids, ch, n);
      if UpdateFirst(n, ids, ch).Some? {
        var r := UpdateFirst(n, ids, ch).value;
        TurnFits(ids, ch, n, r);
        if Update(r, ch, Turn(n)).Some? { TurnProgresses(ids, ch, n, r); }
      }
    }
  }

  /** A change can be carried out exactly when every new id fits, and then every
      extension it touches has its new id and all others keep theirs. */
  lemma RegistryExact(ids: Registry, ch: Change)
    requires Sound(ids)
    ensures UpdateFirst(5, ids, ch).Some? <==> forall t: ExtensionType :: Fits(ids, ch, t)
    ensures UpdateFirst(5, ids, ch).Some? ==>
              && Sound(UpdateFirst(5, ids, ch).value)
              && forall t: ExtensionType :: CurrentId(UpdateFirst(5, ids, ch).value, t) == FinalId(ids, ch, t)
  {
    TurnsFit(ids, ch, 5);
    forall t: ExtensionType ensures (Rank(t) < 5 && t == Turn(Rank(t))) || !Touched(ch, t) {
    }
    if forall j: nat | j < 5 :: Fits(ids, ch, Turn(j)) {
      forall t: ExtensionType ensures Fits(ids, ch, t) {
        if Rank(t) < 5 { assert Fits(ids, ch, Turn(Rank(t))); }
      }
    }
  }

  // ---------------------------------------------------- what goes through, spelled out

  /** A configuration that asks for one extension only. */
  function Only1(t: ExtensionType, id: int): Config {
    DEFAULT_CONFIG.(mid := "m", ids :=
      match t
      case AudioLevel => NO_IDS.(audioLevel := id)
      case AbsSendTime => NO_IDS.(absSendTime := id)
      case AbsCaptureTime => NO_IDS.(absCaptureTime := id)
      case TransportSequenceNumber => NO_IDS.(transportSequenceNumber := id)
      case Mid => NO_IDS.(mid := id)
      case Rid => NO_IDS.(rid := id)
      case RepairedRid => NO_IDS.(repairedRid := id))
  }

  predicate Registrable(t: ExtensionType) { t != Rid && t != RepairedRid }

  /** An extension gives up its id and another one takes it, in one change: this
      goes through exactly if the audio level gives it up, or the absolute send
      time to any but the audio level. */
  lemma IdHandedOn(t: ExtensionType, u: ExtensionType, id: int)
    requires Registrable(t) && Registrable(u) && t != u && 1 <= id <= 255
    ensures var after := UpdateFirst(5, map[t := id], Change(Only1(t, id), Only1(u, id), false, false));
            && (after.Some? <==> t == AudioLevel || (t == AbsSendTime && u != AudioLevel))
            && (after.Some? ==> after.value == map[u := id])
  {
    var ids, ch: Change := map[t := id], Change(Only1(t, id), Only1(u, id), false, false);
    assert Sound(ids);
    RegistryExact(ids, ch);
    FitsHandedOn(t, u, id);
    assert Fits(ids, ch, u) <==> t == AudioLevel || (t == AbsSendTime && u != AudioLevel);
    forall x: ExtensionType | x != u ensures Fits(ids, ch, x) {
    }
    if UpdateFirst(5, ids, ch).Some? {
      assert Fits(ids, ch, u);
      forall x: ExtensionType ensures FinalId(ids, ch, x) == if x == u then id else 0 {
      }
      SoundKeys(UpdateFirst(5, ids, ch).value, u, id);
    }
  }

  lemma SoundKeys(ids: Registry, u: ExtensionType, id: int)
    requires Sound(ids) && id != 0 && forall x: ExtensionType :: CurrentId(ids, x) == if x == u then id else 0
    ensures ids == map[u := id]
  {
    forall x: ExtensionType ensures x in ids <==> x == u {
      assert CurrentId(ids, x) == if x == u then id else 0;
      if x in ids { assert 1 <= ids[x]; }
    }
    assert CurrentId(ids, u) == id;
  }

  lemma FitsHandedOn(t: ExtensionType, u: ExtensionType, id: int)
    requires Registrable(t) && Registrable(u) && t != u && 1 <= id <= 255
    ensures Fits(map[t := id], Change(Only1(t, id), Only1(u, id), false, false), u) <==>
            t == AudioLevel || (t == AbsSendTime && u != AudioLevel)
  {
    var ids, ch: Change := map[t := id], Change(Only1(t, id), Only1(u, id), false, false);
    assert CurrentId(ids, t) == id;
    assert forall x: ExtensionType | x != t :: CurrentId(ids, x) == 0;
    assert id != (if Rank(t) < Rank(u) then FinalId(ids, ch, t) else CurrentId(ids, t)) <==>
           t == AudioLevel || (t == AbsSendTime && u != AudioLevel);
  }

  /** An extension that changes its id: this goes through exactly for the two
      absolute times. */
  lemma IdMoves(t: ExtensionType, id: int, to: int)
    requires Registrable(t) && 1 <= id <= 255 && 1 <= to <= 255 && id != to
    ensures var after := UpdateFirst(5, map[t := id], Change(Only1(t, id), Only1(t, to), false, false));
            && (after.Some? <==> t == AbsSendTime || t == AbsCaptureTime)
            && (after.Some? ==> after.value == map[t := to])
  {
    var ids, ch: Change := map[t := id], Change(Only1(t, id), Only1(t, to), false, false);
    assert Sound(ids);
    RegistryExact(ids, ch);
    assert CurrentId(ids, t) == id;
    forall x: ExtensionType | x != t ensures Fits(ids, ch, x) && FinalId(ids, ch, x) == 0 {
    }
    assert Fits(ids, ch, t) <==> t == AbsSendTime || t == AbsCaptureTime;
    if UpdateFirst(5, ids, ch).Some? {
      SoundKeys(UpdateFirst(5, ids, ch).value, t, to);
    }
  }
}
