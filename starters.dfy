/**
 * `set_starters`: one host starter per configured entry, built from the entry's
 * keyword arguments, or nothing when STARTERS is not configured at all.
 */
module Starters {
  import opened Wrappers
  import opened Config

  /** A host starter suggestion, `cl.Starter(**entry)`. */
  datatype Starter = Starter(kwargs: map<string, string>)

  /** The list comprehension `[cl.Starter(**starter) for starter in entries]`. */
  function MakeStarters(entries: seq<StarterEntry>): (r: seq<Starter>)
    ensures |r| == |entries|
    ensures forall i :: 0 <= i < |entries| ==> r[i].kwargs == entries[i]
  {
    if entries == [] then []
    else [Starter(entries[0])] + MakeStarters(entries[1..])
  }

  /** Reading STARTERS raises `AttributeError` when it is absent; that is caught. */
  function SetStarters(settings: Settings): (r: Option<seq<Starter>>)
    ensures r.None? <==> settings.starters.None?
    ensures r.Some? ==> |r.value| == |settings.starters.value|
    ensures r.Some? ==> forall i :: 0 <= i < |r.value| ==> r.value[i].kwargs == settings.starters.value[i]
  {
    match settings.starters
    case None => None
    case Some(entries) => Some(MakeStarters(entries))
  }

  function Kwargs(starters: seq<Starter>): (r: seq<StarterEntry>)
    ensures |r| == |starters|
  {
    if starters == [] then [] else [starters[0].kwargs] + Kwargs(starters[1..])
  }

  /** The starters give back the configured entries, all of them and in order. */
  lemma {:induction false} StarterRoundTrip(entries: seq<StarterEntry>)
    ensures Kwargs(MakeStarters(entries)) == entries
  {
    if entries != [] {
      StarterRoundTrip(entries[1..]);
      assert MakeStarters(entries)[1..] == MakeStarters(entries[1..]);
    }
  }

  /**
   * Configuring entries `a` then `b` gives the starters of `a` followed by
   * those of `b`: the map is element by element, in order.
   */
  lemma {:induction false} MakeStartersAppend(a: seq<StarterEntry>, b: seq<StarterEntry>)
    ensures MakeStarters(a + b) == MakeStarters(a) + MakeStarters(b)
  {
    if a != [] {
      assert (a + b)[1..] == a[1..] + b;
      MakeStartersAppend(a[1..], b);
    }
  }
}
