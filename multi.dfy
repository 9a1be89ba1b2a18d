/**
 * The fan-out handler: one record goes to an ordered list of child
 * handlers, each filtered by its own level, stopping at the first child
 * that reports an error.
 */
module Multi {
  import opened Wrappers
  import opened Slog

  /** A child that Handle would call for `level` and that then fails. */
  predicate Fails(h: Handler, level: Level) {
    h.Enabled(level) && h.failure.Some?
  }

  /** The indices below `n` of the children enabled for `level`, in increasing order. */
  function EnabledBefore(hs: seq<Handler>, level: Level, n: nat): (ks: seq<nat>)
    requires n <= |hs|
    ensures forall j :: 0 <= j < |ks| ==> ks[j] < n && hs[ks[j]].Enabled(level)
    ensures forall k :: 0 <= k < n && hs[k].Enabled(level) ==> k in ks
    ensures forall i, j :: 0 <= i < j < |ks| ==> ks[i] < ks[j]
  {
    if n == 0 then []
    else EnabledBefore(hs, level, n - 1) + (if hs[n - 1].Enabled(level) then [n - 1] else [])
  }

  /** The first index at or after `from` of a child that is enabled for `level` and fails. */
  function FirstFailing(hs: seq<Handler>, level: Level, from: nat): (k: Option<nat>)
    requires from <= |hs|
    ensures k.Some? ==> from <= k.value < |hs| && Fails(hs[k.value], level)
    ensures forall j :: from <= j < (if k.Some? then k.value else |hs|) ==> !Fails(hs[j], level)
    decreases |hs| - from
  {
    if from == |hs| then None
    else if Fails(hs[from], level) then Some(from)
    else FirstFailing(hs, level, from + 1)
  }

  /** A failing child with no failing child before it is the one FirstFailing finds. */
  lemma FirstFailingAt(hs: seq<Handler>, level: Level, i: nat)
    requires i < |hs| && Fails(hs[i], level)
    requires forall j :: 0 <= j < i ==> !Fails(hs[j], level)
    ensures FirstFailing(hs, level, 0) == Some(i)
  {
  }

  /** With no failing child, FirstFailing finds none. */
  lemma NoneFailing(hs: seq<Handler>, level: Level)
    requires forall j :: 0 <= j < |hs| ==> !Fails(hs[j], level)
    ensures FirstFailing(hs, level, 0) == None
  {
  }

  class MultiHandler {
    /** The children, in order; the slice is shared with whoever built it. */
    const handlers: array<Handler>

    constructor (hs: array<Handler>)
      ensures handlers == hs
    {
      handlers := hs;
    }

    /** Enabled for `level` exactly when every child is; so always, with no children. */
    method Enabled(level: Level) returns (b: bool)
      ensures b <==> forall i :: 0 <= i < handlers.Length ==> handlers[i].Enabled(level)
    {
      for i := 0 to handlers.Length
        invariant forall j :: 0 <= j < i ==> handlers[j].Enabled(level)
      {
        if !handlers[i].Enabled(level) {
          return false;
        }
      }
      return true;
    }

    /** A new multi-handler over a fresh slice whose child i is child i with `attrs` added. */
    method WithAttrs(attrs: seq<Attr>) returns (m: MultiHandler)
      ensures fresh(m) && fresh(m.handlers)
      ensures m.handlers.Length == handlers.Length
      ensures forall i :: 0 <= i < handlers.Length ==> m.handlers[i] == handlers[i].WithAttrs(attrs)
    {
      var hs := new Handler[handlers.Length];
      for i := 0 to handlers.Length
        invariant forall j :: 0 <= j < i ==> hs[j] == handlers[j].WithAttrs(attrs)
      {
        hs[i] := handlers[i].WithAttrs(attrs);
      }
      m := new MultiHandler(hs);
    }

    /** A new multi-handler over a fresh slice whose child i is child i scoped under group `name`. */
    method WithGroup(name: string) returns (m: MultiHandler)
      ensures fresh(m) && fresh(m.handlers)
      ensures m.handlers.Length == handlers.Length
      ensures forall i :: 0 <= i < handlers.Length ==> m.handlers[i] == handlers[i].WithGroup(name)
    {
      var hs := new Handler[handlers.Length];
      for i := 0 to handlers.Length
        invariant forall j :: 0 <= j < i ==> hs[j] == handlers[j].WithGroup(name)
      {
        hs[i] := handlers[i].WithGroup(name);
      }
      m := new MultiHandler(hs);
    }

    /**
     * Hands `r` to every child enabled for its level, in order, and stops
     * at the first error. `invoked` lists the children whose Handle ran.
     */
    method Handle(r: Record) returns (err: Option<Error>, invoked: seq<nat>)
      ensures FirstFailing(handlers[..], r.level, 0).None? ==>
        err == None && invoked == EnabledBefore(handlers[..], r.level, handlers.Length)
      ensures FirstFailing(handlers[..], r.level, 0).Some? ==>
        var k := FirstFailing(handlers[..], r.level, 0).value;
        err == handlers[k].Handle(r) && err.Some? &&
        invoked == EnabledBefore(handlers[..], r.level, k) + [k]
      ensures forall j :: 0 <= j < |invoked| ==> invoked[j] < handlers.Length && handlers[invoked[j]].Enabled(r.level)
      ensures err == None <==>
        forall k :: 0 <= k < handlers.Length && handlers[k].Enabled(r.level) ==> handlers[k].Handle(r) == None
    {
      ghost var hs := handlers[..];
      invoked := [];
      for i := 0 to handlers.Length
        invariant invoked == EnabledBefore(hs, r.level, i)
        invariant forall j :: 0 <= j < i ==> !Fails(hs[j], r.level)
      {
        var handler := handlers[i];
        if !handler.Enabled(r.level) {
          continue;
        }
        invoked := invoked + [i];
        var e := handler.Handle(r);
        if e.Some? {
          FirstFailingAt(hs, r.level, i);
          return e, invoked;
        }
      }
      NoneFailing(hs, r.level);
      return None, invoked;
    }
  }

  /** NewMultiHandler keeps the very slice it is given, so the children in argument order. */
  method NewMultiHandler(hs: array<Handler>) returns (m: MultiHandler)
    ensures fresh(m) && m.handlers == hs
  {
    m := new MultiHandler(hs);
  }
}
