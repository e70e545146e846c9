/** The link part of the message view (components/ChatMessage.tsx): which
    `(href, label)` anchors a message shows, as a pure function of the message. */
module Render {
  import opened Wrappers
  import opened Types

  /** Label shown when a place has an empty title. */
  const DefaultLabel := "View on Maps"

  /** One anchor: its `href` and its visible label. */
  datatype RenderedLink = RenderedLink(href: string, caption: string)

  /** `maps.title || 'View on Maps'`: never an empty label. */
  function Label(place: MapsPlace): (caption: string)
    ensures caption != []
    ensures place.title != [] ==> caption == place.title
    ensures place.title == [] ==> caption == DefaultLabel
  {
    if place.title != [] then place.title else DefaultLabel
  }

  /** The anchor for one place: it points at the place's uri. */
  function LinkOf(place: MapsPlace): (l: RenderedLink)
    ensures l.href == place.uri && l.caption == Label(place)
  {
    RenderedLink(place.uri, Label(place))
  }

  /** The anchors for a chunk list, skipping chunks without `maps`: never more
      anchors than chunks. */
  function Project(chunks: seq<GroundingChunk>): (r: seq<RenderedLink>)
    ensures |r| <= |chunks|
  {
    if chunks == [] then []
    else
      var head := match chunks[0].maps case None => [] case Some(p) => [LinkOf(p)];
      head + Project(chunks[1..])
  }

  /** Every anchor comes from a map-bearing chunk, and every map-bearing chunk
      yields its anchor. */
  lemma {:induction false} ProjectMembers(chunks: seq<GroundingChunk>)
    ensures forall l | l in Project(chunks) :: exists c | c in chunks :: c.maps.Some? && l == LinkOf(c.maps.value)
    ensures forall c | c in chunks && c.maps.Some? :: LinkOf(c.maps.value) in Project(chunks)
  {
    if chunks != [] {
      ProjectMembers(chunks[1..]);
      assert forall c | c in chunks[1..] :: c in chunks;
      assert forall c | c in chunks :: c == chunks[0] || c in chunks[1..];
    }
  }

  /** Order is kept: projecting a concatenation concatenates the projections. */
  lemma {:induction false} ProjectConcat(a: seq<GroundingChunk>, b: seq<GroundingChunk>)
    ensures Project(a + b) == Project(a) + Project(b)
  {
    if a == [] {
      assert a + b == b;
    } else {
      assert (a + b)[1..] == a[1..] + b;
      ProjectConcat(a[1..], b);
    }
  }

  /** A map-less chunk contributes nothing; a map-bearing one contributes its anchor. */
  lemma ProjectSingle(c: GroundingChunk)
    ensures c.maps.None? ==> Project([c]) == []
    ensures c.maps.Some? ==> Project([c]) == [LinkOf(c.maps.value)]
  { }

  /** When every chunk has `maps`, nothing is skipped: anchor i belongs to chunk i. */
  lemma {:induction false} ProjectAllMapped(chunks: seq<GroundingChunk>)
    requires forall i | 0 <= i < |chunks| :: chunks[i].maps.Some?
    ensures |Project(chunks)| == |chunks|
    ensures forall i | 0 <= i < |chunks| :: Project(chunks)[i] == LinkOf(chunks[i].maps.value)
  {
    if chunks != [] {
      ProjectAllMapped(chunks[1..]);
    }
  }

  /** The anchors a message shows: none for a user message, none when `links` is
      absent or empty, otherwise the map-bearing chunks' anchors in order. */
  function RenderedLinks(m: ChatMessage): (r: seq<RenderedLink>)
    ensures m.role == User || m.links.None? ==> r == []
    ensures m.links.Some? ==> |r| <= |m.links.value|
    ensures m.role == Assistant && m.links.Some? ==> r == Project(m.links.value)
  {
    if m.role == Assistant && m.links.Some? && |m.links.value| > 0 then Project(m.links.value) else []
  }
}
