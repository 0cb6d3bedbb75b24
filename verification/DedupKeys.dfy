/** The key names of the consumers wired in apps/api/cmd/core/main.go. */
module DedupKeys {

  /** What a consumer keeps in the store for one event: the processed marker or the lease. */
  datatype Key = Marker(consumer: string, event: string) | Lease(consumer: string, event: string)

  const WIRED: set<string> := {
    "message_created", "message_edited", "user_registered", "message_deleted",
    "reaction_added", "reaction_removed", "webhook_message_sent"
  }

  /** The prefix passed to Run, and the key built from it. */
  function Prefix(consumer: string): string { "dedup:" + consumer + ":" }

  function Render(k: Key): string {
    Prefix(k.consumer) + (if k.Marker? then "processed:" else "processing:") + k.event
  }

  lemma WiredNames(name: string)
    ensures name in WIRED <==>
            || name == "message_created" || name == "message_edited" || name == "message_deleted"
            || name == "reaction_added" || name == "reaction_removed"
            || name == "user_registered" || name == "webhook_message_sent"
  {
  }

  predicate NoColon(s: string) { forall i :: 0 <= i < |s| ==> s[i] != ':' }

  /** Two texts that agree up to a separator neither part contains agree on both sides of it. */
  lemma SplitAtColon(a: string, x: string, b: string, y: string)
    requires NoColon(a) && NoColon(b)
    requires a + ":" + x == b + ":" + y
    ensures a == b && x == y
  {
    var l, r := a + ":" + x, b + ":" + y;
    assert l[|a|] == ':' && forall i :: 0 <= i < |a| ==> l[i] == a[i];
    assert r[|b|] == ':' && forall i :: 0 <= i < |b| ==> r[i] == b[i];
    assert l[..|a|] == a && r[..|b|] == b;
    assert l[|a| + 1..] == x && r[|b| + 1..] == y;
  }

  lemma CutPrefix(p: string, x: string, y: string)
    requires p + x == p + y
    ensures x == y
  {
    assert (p + x)[|p|..] == x && (p + y)[|p|..] == y;
  }

  function Kind(k: Key): string { if k.Marker? then "processed" else "processing" }

  function Tail(k: Key): string { Kind(k) + ":" + k.event }

  lemma RenderForm(k: Key)
    ensures Render(k) == "dedup:" + (k.consumer + ":" + Tail(k))
  {
    assert "processed:" == "processed" + ":" && "processing:" == "processing" + ":";
  }

  lemma KindDecides(k: Key, l: Key)
    requires Kind(k) == Kind(l)
    ensures k.Marker? == l.Marker?
  {
    assert |"processed"| == 9 && |"processing"| == 10;
  }

  lemma KindHasNoColon(k: Key)
    ensures NoColon(Kind(k))
  {
  }

  lemma WiredHasNoColon(name: string)
    requires name in WIRED
    ensures NoColon(name)
  {
  }

  /** Markers and leases never share a key, whatever the event id is: it may contain colons or
      imitate another key. */
  lemma RenderInjective(k: Key, l: Key)
    requires NoColon(k.consumer) && NoColon(l.consumer)
    requires Render(k) == Render(l)
    ensures k == l
  {
    RenderForm(k);
    RenderForm(l);
    CutPrefix("dedup:", k.consumer + ":" + Tail(k), l.consumer + ":" + Tail(l));
    SplitAtColon(k.consumer, Tail(k), l.consumer, Tail(l));
    KindHasNoColon(k);
    KindHasNoColon(l);
    SplitAtColon(Kind(k), k.event, Kind(l), l.event);
    KindDecides(k, l);
  }

  lemma KeysNeverCollide(k: Key, l: Key)
    requires k.consumer in WIRED && l.consumer in WIRED
    ensures Render(k) == Render(l) <==> k == l
  {
    WiredHasNoColon(k.consumer);
    WiredHasNoColon(l.consumer);
    if Render(k) == Render(l) {
      RenderInjective(k, l);
    }
  }
}
