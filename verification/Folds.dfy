/**
 The two places a reply's events are folded: the server's `consume` in
 apps/api/turns.py, which stores the result, and the page's handlers in
 apps/web/hooks/useChat.ts, which show it.
 */
module Folds {
  import opened Events
  import opened Decimals

  function Join(pieces: seq<string>): string {
    if pieces == [] then "" else Join(pieces[..|pieces| - 1]) + pieces[|pieces| - 1]
  }

  predicate EndsWith(text: string, tail: string) {
    |tail| <= |text| && text[|text| - |tail|..] == tail
  }

  function DropTail(text: string, tail: string): string
    requires EndsWith(text, tail)
  {
    text[..|text| - |tail|]
  }

  /** The server's key, and the page's string key for it. */
  function ServerKey(s: Source): (string, nat) {
    (s.documentId, s.chunkIdx)
  }

  function PageKey(s: Source): string {
    s.documentId + ":" + Decimal(s.chunkIdx)
  }

  datatype Reply = Reply(text: string, sources: seq<Source>)

  /** `setdefault` on the insertion-ordered dict: the first source of a key stays. */
  function Keep(sources: seq<Source>, s: Source): seq<Source> {
    if exists k :: 0 <= k < |sources| && ServerKey(sources[k]) == ServerKey(s) then sources else sources + [s]
  }

  function KeepAll(sources: seq<Source>, batch: seq<Source>): seq<Source> {
    if batch == [] then sources else Keep(KeepAll(sources, batch[..|batch| - 1]), batch[|batch| - 1])
  }

  function FoldEvent(r: Reply, e: Event): Reply {
    match e
    case Content(text) => r.(text := r.text + text)
    case Retract(text) => if text != "" && EndsWith(r.text, text) then r.(text := DropTail(r.text, text)) else r
    case Status(_) => r
    case Sources(batch) => r.(sources := KeepAll(r.sources, batch))
  }

  function Fold(r: Reply, events: seq<Event>): Reply {
    if events == [] then r else FoldEvent(Fold(r, events[..|events| - 1]), events[|events| - 1])
  }

  const EMPTY := Reply("", [])

  /** A retract takes back exactly the end it names; one that is no end, or is empty, takes nothing. */
  lemma RetractExactly(r: Reply, text: string)
    ensures forall front :: text != "" && r.text == front + text ==>
              FoldEvent(r, Retract(text)) == Reply(front, r.sources)
    ensures text == "" || (forall front :: r.text != front + text) ==> FoldEvent(r, Retract(text)) == r
  {
    forall front | text != "" && r.text == front + text
      ensures EndsWith(r.text, text) && DropTail(r.text, text) == front
    {
    }
    if EndsWith(r.text, text) { assert r.text == DropTail(r.text, text) + text; }
  }

  predicate Has(sources: seq<Source>, key: (string, nat)) {
    exists k :: 0 <= k < |sources| && ServerKey(sources[k]) == key
  }

  /** The sources of `batch` whose key no earlier one had, in order. */
  function Firsts(batch: seq<Source>): seq<Source> {
    if batch == [] then []
    else
      var init, s := batch[..|batch| - 1], batch[|batch| - 1];
      if Has(init, ServerKey(s)) then Firsts(init) else Firsts(init) + [s]
  }

  lemma HasSnoc(sources: seq<Source>, s: Source, key: (string, nat))
    ensures Has(sources + [s], key) <==> Has(sources, key) || ServerKey(s) == key
  {
    if Has(sources, key) {
      var k :| 0 <= k < |sources| && ServerKey(sources[k]) == key;
      assert (sources + [s])[k] == sources[k];
    }
    assert (sources + [s])[|sources|] == s;
  }

  lemma {:induction false} KeepAllKeepsFirsts(batch: seq<Source>)
    ensures KeepAll([], batch) == Firsts(batch)
    ensures forall key :: Has(Firsts(batch), key) <==> Has(batch, key)
  {
    if batch != [] {
      var init, s := batch[..|batch| - 1], batch[|batch| - 1];
      KeepAllKeepsFirsts(init);
      assert batch == init + [s];
      forall key ensures Has(Firsts(batch), key) <==> Has(batch, key) {
        HasSnoc(init, s, key);
        HasSnoc(Firsts(init), s, key);
      }
    }
  }

  /** Every source that any event of the reply brought, in order. */
  function AllSources(events: seq<Event>): seq<Source> {
    if events == [] then []
    else
      var init, e := AllSources(events[..|events| - 1]), events[|events| - 1];
      if e.Sources? then init + e.batch else init
  }

  lemma {:induction false} KeepAllAppend(a: seq<Source>, b: seq<Source>)
    ensures KeepAll(KeepAll([], a), b) == KeepAll([], a + b)
  {
    if b == [] {
      assert a + b == a;
    } else {
      assert (a + b)[..|a + b| - 1] == a + b[..|b| - 1];
      KeepAllAppend(a, b[..|b| - 1]);
    }
  }

  /** What is stored with a reply: of everything its searches brought, the first of each key, in order. */
  lemma {:induction false} FoldKeepsFirstSources(events: seq<Event>)
    ensures Fold(EMPTY, events).sources == Firsts(AllSources(events))
  {
    KeepAllKeepsFirsts(AllSources(events));
    if events != [] {
      var init, e := events[..|events| - 1], events[|events| - 1];
      FoldKeepsFirstSources(init);
      KeepAllKeepsFirsts(AllSources(init));
      if e.Sources? {
        KeepAllAppend(AllSources(init), e.batch);
      }
    }
  }

  lemma {:induction false} FoldAppend(r: Reply, a: seq<Event>, b: seq<Event>)
    ensures Fold(r, a + b) == Fold(Fold(r, a), b)
  {
    if b == [] {
      assert a + b == a;
    } else {
      assert (a + b)[..|a + b| - 1] == a + b[..|b| - 1];
      FoldAppend(r, a, b[..|b| - 1]);
    }
  }

  predicate Digits(s: string) {
    forall k :: 0 <= k < |s| ==> IsDigit(s[k])
  }

  lemma LastColon(a: string, x: string, b: string, y: string)
    requires Digits(x) && Digits(y) && a + ":" + x == b + ":" + y
    ensures a == b && x == y
  {
    var s := a + ":" + x;
    assert s[|a|] == ':' && s[|b|] == ':';
    assert forall k :: |a| < k < |s| ==> s[k] == x[k - |a| - 1];
    assert forall k :: |b| < k < |s| ==> s[k] == y[k - |b| - 1];
    assert |a| == |b|;
    assert s[..|a|] == a && s[..|b|] == b && s[|a| + 1..] == x && s[|b| + 1..] == y;
  }

  /** The page's string key tells two sources apart exactly when the server's pair does. */
  lemma PageKeyIsInjective(a: Source, b: Source)
    ensures PageKey(a) == PageKey(b) <==> ServerKey(a) == ServerKey(b)
    ensures PageKey(a) == PageKey(b) <==> a.documentId == b.documentId && a.chunkIdx == b.chunkIdx
  {
    if PageKey(a) == PageKey(b) {
      LastColon(a.documentId, Decimal(a.chunkIdx), b.documentId, Decimal(b.chunkIdx));
      DecimalReadsBack(a.chunkIdx);
      DecimalReadsBack(b.chunkIdx);
    }
  }

  /** The page's `sources`: an insertion-ordered Map from string keys, and its text. */
  class PageReply {
    var fullContent: string
    var keys: seq<string>
    var sources: map<string, Source>

    ghost predicate Valid()
      reads this
    {
      && (forall i, j :: 0 <= i < j < |keys| ==> keys[i] != keys[j])
      && (forall key :: key in sources <==> key in keys)
      && forall key :: key in sources ==> PageKey(sources[key]) == key
    }

    /** `[...sources.values()]` with the text. */
    function Shown(): (r: Reply)
      requires Valid()
      reads this
    {
      assert forall k :: 0 <= k < |keys| ==> keys[k] in sources;
      Reply(fullContent, seq(|keys|, k requires 0 <= k < |keys| && keys[k] in sources reads this => sources[keys[k]]))
    }

    constructor ()
      ensures Valid() && Shown() == EMPTY
    {
      fullContent, keys, sources := "", [], map[];
    }

    method OnChunk(chunk: string)
      requires Valid()
      modifies this`fullContent
      ensures Valid() && Shown() == FoldEvent(old(Shown()), Content(chunk))
    {
      fullContent := fullContent + chunk;
    }

    method OnRetract(text: string)
      requires Valid() && text != ""
      modifies this`fullContent
      ensures Valid() && Shown() == FoldEvent(old(Shown()), Retract(text))
    {
      if !EndsWith(fullContent, text) {
        return;
      }
      fullContent := fullContent[..|fullContent| - |text|];
    }

    method OnSource(s: Source)
      requires Valid()
      modifies this`keys, this`sources
      ensures Valid() && Shown() == old(Shown()).(sources := Keep(old(Shown()).sources, s))
    {
      var key := PageKey(s);
      ghost var before := Shown().sources;
      forall k | 0 <= k < |before| ensures ServerKey(before[k]) == ServerKey(s) <==> keys[k] == key {
        PageKeyIsInjective(before[k], s);
      }
      if key !in sources {
        keys, sources := keys + [key], sources[key := s];
      }
    }

    method OnSources(batch: seq<Source>)
      requires Valid()
      modifies this`keys, this`sources
      ensures Valid() && Shown() == FoldEvent(old(Shown()), Sources(batch))
    {
      for k := 0 to |batch|
        invariant Valid()
        invariant Shown() == old(Shown()).(sources := KeepAll(old(Shown()).sources, batch[..k]))
      {
        assert batch[..k + 1][..k] == batch[..k];
        OnSource(batch[k]);
      }
      assert batch[..|batch|] == batch;
    }

    /** One event as `readReplyStream` hands it on: an empty text, retract or batch is no event at all. */
    method Receive(e: Event)
      requires Valid()
      modifies this
      ensures Valid() && Shown() == FoldEvent(old(Shown()), e)
    {
      match e
      case Content(text) =>
        if text != "" { OnChunk(text); }
      case Retract(text) =>
        if text != "" { OnRetract(text); }
      case Status(_) =>
      case Sources(batch) =>
        if batch != [] { OnSources(batch); }
    }

    /** The page shows exactly what the server's fold of the same events stores. */
    method ReceiveAll(events: seq<Event>)
      requires Valid()
      modifies this
      ensures Valid() && Shown() == Fold(old(Shown()), events)
    {
      for k := 0 to |events|
        invariant Valid() && Shown() == Fold(old(Shown()), events[..k])
      {
        assert events[..k + 1][..k] == events[..k];
        Receive(events[k]);
      }
      assert events[..|events|] == events;
    }
  }
}
