/**
 * The card list bookkeeping of the Settings homepage: one list of contextual
 * cards, each tagged with an integer card type, which the manager replaces
 * when loading finishes and merges when a card controller reports new data
 * for one card type.
 *
 * The controller pool, the controllers, the lifecycle and the update listener
 * are outside this model; every call the manager makes into them is appended
 * to the manager's `log`, in the order the manager makes it.
 */
module ContextualCards {
  import opened Wrappers

  /** ContextualCard.CardType.INVALID. ContextualCard.java is not part of this
      model; the value is a placeholder and nothing proved depends on it. */
  const INVALID: int := -1
  /** ContextualCard.CardType.CONDITIONAL (placeholder value, as above). */
  const CONDITIONAL: int := 3

  /** The card types whose data Settings provides itself. */
  const SETTINGS_CARDS: seq<int> := [CONDITIONAL]

  /** A contextual card; only its type matters to the manager. */
  datatype Card = Card(name: string, cardType: int)

  /** A card controller handed out by the pool, and whether it is also a
      lifecycle observer. */
  datatype Controller = Controller(id: nat, isLifecycleObserver: bool)

  /** Identities of an update listener and of a lifecycle. */
  type ListenerRef = nat
  type LifecycleRef = nat

  /** The calls the manager makes into code outside the model. */
  datatype Event =
    | ControllerRequested(cardType: int)
    | CardUpdateListenerSet(controller: Controller)
    | ObserverAdded(lifecycle: LifecycleRef, controller: Controller)
    | ListenerNotified(listener: ListenerRef, cardType: int, cards: seq<Card>)

  // ---------------------------------------------------------------------
  // Removing every card of one type
  // ---------------------------------------------------------------------

  /** The cards of `s` whose type is not `t`, in their order in `s`. */
  function RemoveType(s: seq<Card>, t: int): (r: seq<Card>)
    ensures |r| <= |s|
    ensures DrawnFrom(r, s)
    ensures forall i :: 0 <= i < |r| ==> r[i].cardType != t
  {
    if s == [] then []
    else (if s[0].cardType == t then [] else [s[0]]) + RemoveType(s[1..], t)
  }

  /** Every card of `r` is a card of `s`. */
  predicate DrawnFrom(r: seq<Card>, s: seq<Card>)
  {
    forall i :: 0 <= i < |r| ==> r[i] in s
  }

  /** Unfolds the removal at index `i` of `s`. */
  lemma RemoveTypeStep(s: seq<Card>, i: nat, t: int)
    requires i < |s|
    ensures RemoveType(s[i..], t)
         == (if s[i].cardType == t then [] else [s[i]]) + RemoveType(s[i + 1..], t)
  {
    assert s[i..][1..] == s[i + 1..];
  }

  /** One step of removing backwards: when the cards after index `i` have
      been filtered, deleting index `i` if it has type `t` (and keeping it
      otherwise) extends the filtered part to start at `i`. */
  lemma BackwardRemovalStep(before: seq<Card>, cards: seq<Card>, i: nat, t: int)
    requires i < |before|
    requires cards == before[..i + 1] + RemoveType(before[i + 1..], t)
    ensures i < |cards| && cards[i] == before[i]
    ensures cards[i].cardType == t ==> cards[..i] + cards[i + 1..] == before[..i] + RemoveType(before[i..], t)
    ensures cards[i].cardType != t ==> cards == before[..i] + RemoveType(before[i..], t)
  {
    var done, x, kept := before[..i], before[i], RemoveType(before[i + 1..], t);
    assert before[..i + 1] == done + [x];
    Splice(done, x, kept);
    RemoveTypeStep(before, i, t);
  }

  /** Deleting the element between `done` and `kept` leaves `done + kept`. */
  lemma Splice(done: seq<Card>, x: Card, kept: seq<Card>)
    ensures var s := done + [x] + kept;
      && |s| > |done| && s[|done|] == x
      && s[..|done|] + s[|done| + 1..] == done + kept
      && s == done + ([x] + kept)
  {
    var s := done + [x] + kept;
    assert s[..|done|] == done;
    assert s[|done| + 1..] == kept;
  }

  /** The number of cards of type `t` in `s`. */
  function CountType(s: seq<Card>, t: int): (n: nat)
  {
    if s == [] then 0
    else (if s[0].cardType == t then 1 else 0) + CountType(s[1..], t)
  }

  /** The list after an update for type `t` with the new cards `u`. */
  function Merged(s: seq<Card>, t: int, u: seq<Card>): seq<Card>
  {
    RemoveType(s, t) + u
  }

  /** Exactly the cards of type `t` are dropped, each other card is kept as
      often as it occurs in `s`. */
  lemma RemoveTypeMultiset(s: seq<Card>, t: int, c: Card)
    ensures multiset(RemoveType(s, t))[c] == if c.cardType == t then 0 else multiset(s)[c]
  {
    OccurrencesAreMultiplicity(s, c);
    OccurrencesAreMultiplicity(RemoveType(s, t), c);
    RemoveTypeOccurrences(s, t, c);
  }

  /** The number of times `c` occurs in `s`. */
  function Occurrences(s: seq<Card>, c: Card): nat
  {
    if s == [] then 0 else (if s[0] == c then 1 else 0) + Occurrences(s[1..], c)
  }

  lemma {:induction false} OccurrencesAreMultiplicity(s: seq<Card>, c: Card)
    ensures multiset(s)[c] == Occurrences(s, c)
  {
    if s != [] {
      assert s == [s[0]] + s[1..];
      OccurrencesAreMultiplicity(s[1..], c);
    }
  }

  lemma {:induction false} RemoveTypeOccurrences(s: seq<Card>, t: int, c: Card)
    ensures Occurrences(RemoveType(s, t), c) == if c.cardType == t then 0 else Occurrences(s, c)
  {
    if s != [] {
      var rest := RemoveType(s[1..], t);
      RemoveTypeOccurrences(s[1..], t, c);
      if s[0].cardType == t {
        assert RemoveType(s, t) == rest;
      } else {
        assert RemoveType(s, t) == [s[0]] + rest;
        assert ([s[0]] + rest)[1..] == rest;
      }
    }
  }

  /** A card is in the result if and only if it is in `s` with another type. */
  lemma RemoveTypeMembership(s: seq<Card>, t: int, c: Card)
    ensures c in RemoveType(s, t) <==> c in s && c.cardType != t
  {
    RemoveTypeMultiset(s, t, c);
  }

  /** The length of the result is the number of cards not of type `t`. */
  lemma {:induction false} RemoveTypeLength(s: seq<Card>, t: int)
    ensures |RemoveType(s, t)| == |s| - CountType(s, t)
  {
    if s != [] {
      RemoveTypeLength(s[1..], t);
    }
  }

  /** Removing distributes over concatenation. */
  lemma {:induction false} RemoveTypeAppend(a: seq<Card>, b: seq<Card>, t: int)
    ensures RemoveType(a + b, t) == RemoveType(a, t) + RemoveType(b, t)
  {
    if a == [] {
      assert a + b == b;
    } else {
      assert (a + b)[1..] == a[1..] + b;
      RemoveTypeAppend(a[1..], b, t);
    }
  }

  /** A list with no card of type `t` is left as it is. */
  lemma {:induction false} RemoveTypeNone(s: seq<Card>, t: int)
    requires forall i :: 0 <= i < |s| ==> s[i].cardType != t
    ensures RemoveType(s, t) == s
  {
    if s != [] {
      RemoveTypeNone(s[1..], t);
    }
  }

  /** A list whose cards all have type `t` is removed entirely. */
  lemma {:induction false} RemoveTypeAll(s: seq<Card>, t: int)
    requires forall i :: 0 <= i < |s| ==> s[i].cardType == t
    ensures RemoveType(s, t) == []
  {
    if s != [] {
      RemoveTypeAll(s[1..], t);
    }
  }

  /** Removing a type twice is the same as removing it once. */
  lemma RemoveTypeIdempotent(s: seq<Card>, t: int)
    ensures RemoveType(RemoveType(s, t), t) == RemoveType(s, t)
  {
    RemoveTypeNone(RemoveType(s, t), t);
  }

  // ---------------------------------------------------------------------
  // "Order kept": the result is the unique longest subsequence without `t`
  // ---------------------------------------------------------------------

  /** `r` is `s` with some elements left out, the rest in their order. */
  predicate IsSubsequence(r: seq<Card>, s: seq<Card>)
  {
    if r == [] then true
    else if s == [] then false
    else (r[0] == s[0] && IsSubsequence(r[1..], s[1..])) || IsSubsequence(r, s[1..])
  }

  predicate NoneOfType(r: seq<Card>, t: int)
  {
    forall i :: 0 <= i < |r| ==> r[i].cardType != t
  }

  /** The cards kept by the removal appear in `s` in the same order. */
  lemma {:induction false} RemoveTypeIsSubsequence(s: seq<Card>, t: int)
    ensures IsSubsequence(RemoveType(s, t), s)
  {
    if s != [] {
      RemoveTypeIsSubsequence(s[1..], t);
      var rest := RemoveType(s[1..], t);
      if s[0].cardType == t {
        assert RemoveType(s, t) == rest;
      } else {
        assert RemoveType(s, t) == [s[0]] + rest;
        assert ([s[0]] + rest)[1..] == rest;
      }
    }
  }

  /** No subsequence without cards of type `t` is longer than the removal. */
  lemma {:induction false} SubsequenceBound(r: seq<Card>, s: seq<Card>, t: int)
    requires IsSubsequence(r, s) && NoneOfType(r, t)
    ensures |r| <= |s| - CountType(s, t)
  {
    if r == [] {
      RemoveTypeLength(s, t);
    } else if r[0] == s[0] && IsSubsequence(r[1..], s[1..]) {
      SubsequenceBound(r[1..], s[1..], t);
    } else {
      SubsequenceBound(r, s[1..], t);
    }
  }

  /** The removal is the only subsequence of `s` that has no card of type `t`
      and keeps every other card: so it keeps their relative order and
      changes nothing else. */
  lemma {:induction false} RemoveTypeUnique(r: seq<Card>, s: seq<Card>, t: int)
    requires IsSubsequence(r, s) && NoneOfType(r, t)
    requires |r| == |s| - CountType(s, t)
    ensures r == RemoveType(s, t)
  {
    if s == [] {
    } else if s[0].cardType == t {
      assert RemoveType(s, t) == RemoveType(s[1..], t);
      if r == [] {
        RemoveTypeLength(s, t);
      } else {
        assert !(r[0] == s[0]);
        RemoveTypeUnique(r, s[1..], t);
      }
    } else if r == [] {
      RemoveTypeLength(s, t);
    } else if r[0] == s[0] && IsSubsequence(r[1..], s[1..]) {
      assert CountType(s, t) == CountType(s[1..], t);
      assert NoneOfType(r[1..], t);
      RemoveTypeUnique(r[1..], s[1..], t);
      assert RemoveType(s, t) == [s[0]] + RemoveType(s[1..], t);
      assert r == [r[0]] + r[1..];
    } else {
      SubsequenceBound(r, s[1..], t);
    }
  }

  // ---------------------------------------------------------------------
  // The merge made by an update
  // ---------------------------------------------------------------------

  /** The new length is the number of old cards not of type `t` plus `|u|`. */
  lemma MergedLength(s: seq<Card>, t: int, u: seq<Card>)
    ensures |Merged(s, t, u)| == |s| - CountType(s, t) + |u|
  {
    RemoveTypeLength(s, t);
  }

  /** If every new card has type `t`, repeating the update changes nothing. */
  lemma MergedIdempotent(s: seq<Card>, t: int, u: seq<Card>)
    requires forall i :: 0 <= i < |u| ==> u[i].cardType == t
    ensures Merged(Merged(s, t, u), t, u) == Merged(s, t, u)
  {
    var r := RemoveType(s, t);
    RemoveTypeAppend(r, u, t);
    RemoveTypeIdempotent(s, t);
    RemoveTypeAll(u, t);
    assert r + [] == r;
  }

  // ---------------------------------------------------------------------
  // Setting up the card controllers
  // ---------------------------------------------------------------------

  /** The calls made to set up the controller for one card type: ask the
      pool; if it has a controller, make the manager its update listener and,
      if it is a lifecycle observer and there is a lifecycle, register it. */
  function SetupEvents(pool: int -> Option<Controller>, lifecycle: Option<LifecycleRef>,
                       cardType: int): seq<Event>
  {
    [ControllerRequested(cardType)] +
    match pool(cardType)
    case None => []
    case Some(c) =>
      [CardUpdateListenerSet(c)] +
      (if c.isLifecycleObserver && lifecycle.Some? then [ObserverAdded(lifecycle.value, c)] else [])
  }

  /** The calls made to set up controllers for `types`, one after the other. */
  function SetupAll(pool: int -> Option<Controller>, lifecycle: Option<LifecycleRef>,
                    types: seq<int>): seq<Event>
  {
    if types == [] then []
    else SetupEvents(pool, lifecycle, types[0]) + SetupAll(pool, lifecycle, types[1..])
  }

  function CardTypes(cards: seq<Card>): (ts: seq<int>)
    ensures |ts| == |cards|
    ensures forall i :: 0 <= i < |cards| ==> ts[i] == cards[i].cardType
  {
    seq(|cards|, i requires 0 <= i < |cards| => cards[i].cardType)
  }

  /** The card types visited when loading: each loaded card's, in list order,
      then the ones Settings provides. */
  function LoadedTypes(cards: seq<Card>): seq<int>
  {
    CardTypes(cards) + SETTINGS_CARDS
  }

  /** Setting up one more type of `types` appends that type's calls. */
  lemma SetupAllStep(pool: int -> Option<Controller>, lifecycle: Option<LifecycleRef>,
                     types: seq<int>, i: nat)
    requires i < |types|
    ensures SetupAll(pool, lifecycle, types[..i + 1])
         == SetupAll(pool, lifecycle, types[..i]) + SetupEvents(pool, lifecycle, types[i])
  {
    assert types[..i + 1] == types[..i] + [types[i]];
    SetupAllAppend(pool, lifecycle, types[..i], [types[i]]);
    assert SetupAll(pool, lifecycle, [types[i]]) == SetupEvents(pool, lifecycle, types[i]) + SetupAll(pool, lifecycle, []);
  }

  /** The card types the pool is asked for, in order. */
  function RequestedTypes(es: seq<Event>): seq<int>
  {
    if es == [] then []
    else (if es[0].ControllerRequested? then [es[0].cardType] else []) + RequestedTypes(es[1..])
  }

  lemma {:induction false} SetupAllAppend(pool: int -> Option<Controller>, lifecycle: Option<LifecycleRef>,
                                          a: seq<int>, b: seq<int>)
    ensures SetupAll(pool, lifecycle, a + b) == SetupAll(pool, lifecycle, a) + SetupAll(pool, lifecycle, b)
  {
    if a == [] {
      assert a + b == b;
    } else {
      assert (a + b)[1..] == a[1..] + b;
      SetupAllAppend(pool, lifecycle, a[1..], b);
    }
  }

  lemma {:induction false} RequestedTypesAppend(a: seq<Event>, b: seq<Event>)
    ensures RequestedTypes(a + b) == RequestedTypes(a) + RequestedTypes(b)
  {
    if a == [] {
      assert a + b == b;
    } else {
      var head := if a[0].ControllerRequested? then [a[0].cardType] else [];
      assert (a + b)[0] == a[0] && (a + b)[1..] == a[1..] + b;
      assert RequestedTypes(a + b) == head + RequestedTypes(a[1..] + b);
      RequestedTypesAppend(a[1..], b);
    }
  }

  /** The pool is asked exactly once per visited type, in the visiting order. */
  lemma {:induction false} SetupAllRequests(pool: int -> Option<Controller>, lifecycle: Option<LifecycleRef>,
                                            types: seq<int>)
    ensures RequestedTypes(SetupAll(pool, lifecycle, types)) == types
  {
    if types != [] {
      var first := SetupEvents(pool, lifecycle, types[0]);
      SetupAllRequests(pool, lifecycle, types[1..]);
      RequestedTypesAppend(first, SetupAll(pool, lifecycle, types[1..]));
      RequestedTypesAppend([ControllerRequested(types[0])], first[1..]);
      assert first == [ControllerRequested(types[0])] + first[1..];
      assert RequestedTypes(first[1..]) == [] by {
        var rest := first[1..];
        if |rest| > 0 {
          assert !rest[0].ControllerRequested?;
          assert rest[1..] == [] || (|rest[1..]| == 1 && !rest[1..][0].ControllerRequested? && rest[1..][1..] == []);
        }
      }
      assert types == [types[0]] + types[1..];
    }
  }

  /** Loading asks the pool once per loaded card, in list order, then once
      per card type Settings provides. */
  lemma LoadRequests(pool: int -> Option<Controller>, lifecycle: Option<LifecycleRef>, cards: seq<Card>)
    ensures RequestedTypes(SetupAll(pool, lifecycle, LoadedTypes(cards))) == CardTypes(cards) + [CONDITIONAL]
  {
    SetupAllRequests(pool, lifecycle, LoadedTypes(cards));
  }

  /** A controller is registered with the lifecycle only if the pool handed
      it out for a visited type, it is a lifecycle observer and there is a
      lifecycle. */
  lemma {:induction false} ObserverAddedOnlyIf(pool: int -> Option<Controller>, lifecycle: Option<LifecycleRef>,
                                               types: seq<int>, e: Event)
    requires e in SetupAll(pool, lifecycle, types) && e.ObserverAdded?
    ensures lifecycle == Some(e.lifecycle) && e.controller.isLifecycleObserver
    ensures exists k :: k in types && pool(k) == Some(e.controller)
  {
    if types != [] {
      if e in SetupEvents(pool, lifecycle, types[0]) {
        assert types[0] in types;
      } else {
        ObserverAddedOnlyIf(pool, lifecycle, types[1..], e);
        var k :| k in types[1..] && pool(k) == Some(e.controller);
        assert k in types;
      }
    }
  }

  /** Conversely, every such controller is registered with the lifecycle. */
  lemma {:induction false} ObserverAddedIf(pool: int -> Option<Controller>, lifecycle: Option<LifecycleRef>,
                                           types: seq<int>, k: int)
    requires k in types && pool(k).Some? && pool(k).value.isLifecycleObserver && lifecycle.Some?
    ensures ObserverAdded(lifecycle.value, pool(k).value) in SetupAll(pool, lifecycle, types)
  {
    if types[0] == k {
      assert ObserverAdded(lifecycle.value, pool(k).value) in SetupEvents(pool, lifecycle, k);
    } else {
      ObserverAddedIf(pool, lifecycle, types[1..], k);
    }
  }

  /** The notification an update sends: one, to the listener if there is one. */
  function Notification(listener: Option<ListenerRef>, cards: seq<Card>): seq<Event>
  {
    if listener.Some? then [ListenerNotified(listener.value, INVALID, cards)] else []
  }

  // ---------------------------------------------------------------------
  // The manager
  // ---------------------------------------------------------------------

  class ContextualCardManager {
    /** The controller pool, as the controller it hands out per card type. */
    const pool: int -> Option<Controller>
    /** The lifecycle the controllers are registered with; may be null. */
    const lifecycle: Option<LifecycleRef>
    /** mContextualCards */
    var cards: seq<Card>
    /** mListener */
    var listener: Option<ListenerRef>
    /** The calls made into the pool, the controllers, the lifecycle and the
        listener, oldest first. */
    var log: seq<Event>

    constructor (pool: int -> Option<Controller>, lifecycle: Option<LifecycleRef>)
      ensures this.pool == pool && this.lifecycle == lifecycle
      ensures cards == [] && listener == None && log == []
    {
      this.pool := pool;
      this.lifecycle := lifecycle;
      cards := [];
      listener := None;
      log := [];
    }

    method SetListener(l: Option<ListenerRef>)
      modifies this`listener
      ensures listener == l
    {
      listener := l;
    }

    /** Ranking is not implemented: the list is left as it is. */
    method SortCards()
      ensures cards == old(cards) && log == old(log)
    {
    }

    method SetupController(cardType: int)
      modifies this`log
      ensures log == old(log) + SetupEvents(pool, lifecycle, cardType)
    {
      log := log + [ControllerRequested(cardType)];
      var controller := pool(cardType);
      if controller.Some? {
        var c := controller.value;
        log := log + [CardUpdateListenerSet(c)];
        if c.isLifecycleObserver {
          if lifecycle.Some? {
            log := log + [ObserverAdded(lifecycle.value, c)];
          }
        }
      }
    }

    /** Sets up a controller for each of `types`, in order. */
    method SetupControllers(types: seq<int>)
      modifies this`log
      ensures log == old(log) + SetupAll(pool, lifecycle, types)
    {
      var i := 0;
      while i < |types|
        invariant 0 <= i <= |types|
        invariant log == old(log) + SetupAll(pool, lifecycle, types[..i])
      {
        SetupAllStep(pool, lifecycle, types, i);
        SetupController(types[i]);
        i := i + 1;
      }
      assert types[..i] == types;
    }

    /** Sets up a controller for each card in the list, in list order, then
        for each card type Settings provides. The list itself is never null. */
    method LoadCardControllers()
      modifies this`log
      ensures log == old(log) + SetupAll(pool, lifecycle, LoadedTypes(cards))
    {
      SetupControllers(CardTypes(cards));
      SetupControllers(SETTINGS_CARDS);
      SetupAllAppend(pool, lifecycle, CardTypes(cards), SETTINGS_CARDS);
    }

    /** Deletes every card of type `cardType`, walking the list backwards
        and removing by index; the other cards keep their order. */
    method RemoveCardsOfType(cardType: int)
      modifies this`cards
      ensures cards == RemoveType(old(cards), cardType)
    {
      ghost var before := cards;
      var i := |cards| - 1;
      while i >= 0
        invariant -1 <= i < |before|
        invariant cards == before[..i + 1] + RemoveType(before[i + 1..], cardType)
      {
        BackwardRemovalStep(before, cards, i, cardType);
        if cards[i].cardType == cardType {
          cards := cards[..i] + cards[i + 1..];
        }
        i := i - 1;
      }
      assert before[..0] == [];
    }

    /** A controller reports new cards for `cardType`: the old cards of that
        type are removed, the new ones appended, and the listener, if any,
        told about the merged list. A null update list makes the append throw
        once the removal is done: the method then stops with `thrown`,
        leaving the list without the cards of that type and telling no
        listener. */
    method OnContextualCardUpdated(cardType: int, updateList: Option<seq<Card>>)
      returns (thrown: bool)
      modifies this`cards, this`log
      ensures thrown <==> updateList.None?
      ensures updateList.None? ==> cards == RemoveType(old(cards), cardType) && log == old(log)
      ensures updateList.Some? ==> cards == Merged(old(cards), cardType, updateList.value)
      ensures updateList.Some? ==> log == old(log) + Notification(listener, cards)
    {
      RemoveCardsOfType(cardType);
      if updateList.None? {
        return true;
      }
      cards := cards + updateList.value;
      SortCards();
      if listener.Some? {
        log := log + [ListenerNotified(listener.value, INVALID, cards)];
      }
      return false;
    }

    /** Loading finished: the list becomes the loaded cards (empty for a null
        result), then the controllers are set up for it. */
    method OnFinishCardLoading(contextualCards: Option<seq<Card>>)
      modifies this`cards, this`log
      ensures cards == if contextualCards.Some? then contextualCards.value else []
      ensures log == old(log) + SetupAll(pool, lifecycle, LoadedTypes(cards))
    {
      cards := [];
      if contextualCards.Some? {
        cards := cards + contextualCards.value;
      }
      SortCards();
      LoadCardControllers();
    }
  }
}
