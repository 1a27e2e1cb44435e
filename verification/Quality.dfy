/** Simulcast quality layers and the order the media server tries them in. */
module Quality {

  /** A layer is a string in the wire format; the three standard RTP stream IDs
      are named and everything else is kept as it came. */
  datatype QualityLayer = Low | Medium | High | Unknown(rid: string)

  predicate Known(q: QualityLayer) {
    !q.Unknown?
  }

  /** The layer an arbitrary layer string denotes. */
  function LayerOfString(s: string): (q: QualityLayer)
    ensures Known(q) <==> s in {"q", "h", "f"}
  {
    if s == "q" then Low
    else if s == "h" then Medium
    else if s == "f" then High
    else Unknown(s)
  }

  /** The layer of a published RID; unrecognised RIDs count as full resolution. */
  function LayerFromRID(rid: string): (q: QualityLayer)
    ensures Known(q)
    ensures Known(LayerOfString(rid)) ==> q == LayerOfString(rid)
    ensures !Known(LayerOfString(rid)) ==> q == High
  {
    if rid == "q" then Low
    else if rid == "h" then Medium
    else High
  }

  function Rank(q: QualityLayer): (r: int)
    ensures 1 <= r <= 3
  {
    match q
    case Low => 1
    case Medium => 2
    case High => 3
    case Unknown(_) => 3
  }

  function MinQuality(a: QualityLayer, b: QualityLayer): (q: QualityLayer)
    ensures q == a || q == b
    ensures Rank(q) <= Rank(a) && Rank(q) <= Rank(b)
  {
    if Rank(a) <= Rank(b) then a else b
  }

  function DowngradeQuality(q: QualityLayer): (r: QualityLayer)
    ensures Rank(r) == if Known(q) && Rank(q) > 1 then Rank(q) - 1 else 1
  {
    if q == High then Medium else Low
  }

  /** `a` serves a preference better than `b`: not exceeding it comes first, then being
      as near to it as possible. */
  predicate Closer(preferred: QualityLayer, a: QualityLayer, b: QualityLayer) {
    if Rank(a) <= Rank(preferred) then Rank(b) > Rank(preferred) || Rank(b) < Rank(a)
    else Rank(b) > Rank(a)
  }

  /** Layers to try, best first, for a preferred one. */
  function LayerPriority(preferred: QualityLayer): (order: seq<QualityLayer>)
    ensures |order| == 3
    ensures forall q :: Known(q) <==> q in order
    ensures Known(preferred) ==> order[0] == preferred
    ensures forall i, j :: 0 <= i < j < 3 ==> Closer(preferred, order[i], order[j])
  {
    match preferred
    case Medium => [Medium, Low, High]
    case Low => [Low, Medium, High]
    case _ => [High, Medium, Low]
  }

  /** The first known layer of `preferred`'s order that `layers` holds. */
  function BestKnown(layers: set<QualityLayer>, preferred: QualityLayer): (q: QualityLayer)
    requires exists k :: k in layers && Known(k)
    ensures q in layers && Known(q)
    ensures preferred in layers && Known(preferred) ==> q == preferred
    ensures forall k :: k in layers && Known(k) && k != q ==> Closer(preferred, q, k)
  {
    var order := LayerPriority(preferred);
    if order[0] in layers then order[0]
    else if order[1] in layers then order[1]
    else order[2]
  }

  /** `q` is an answer `BestAvailableLayer` may give: the first available layer of
      the order, else any layer there is, else full resolution. */
  ghost predicate IsBestLayer(layers: set<QualityLayer>, preferred: QualityLayer, q: QualityLayer) {
    if exists k :: k in layers && Known(k) then q == BestKnown(layers, preferred)
    else if layers != {} then q in layers
    else q == High
  }

  /** The resolved layer stays at or below the preference exactly when some known layer
      does, and is then the highest such; otherwise it is the lowest layer there is. */
  lemma {:induction false} BestKnownIsClosest(layers: set<QualityLayer>, preferred: QualityLayer)
    requires exists k :: k in layers && Known(k)
    ensures Rank(BestKnown(layers, preferred)) <= Rank(preferred) <==>
      exists k :: k in layers && Known(k) && Rank(k) <= Rank(preferred)
    ensures forall k :: k in layers && Known(k) && Rank(k) <= Rank(preferred) ==>
      Rank(k) <= Rank(BestKnown(layers, preferred))
    ensures (forall k :: k in layers && Known(k) ==> Rank(k) > Rank(preferred)) ==>
      forall k :: k in layers && Known(k) ==> Rank(BestKnown(layers, preferred)) <= Rank(k)
  {
  }

  /** Asking for a higher layer never resolves to a lower one. */
  lemma {:induction false} BestKnownMonotone(layers: set<QualityLayer>, low: QualityLayer, high: QualityLayer)
    requires exists k :: k in layers && Known(k)
    requires Rank(low) <= Rank(high)
    ensures Rank(BestKnown(layers, low)) <= Rank(BestKnown(layers, high))
  {
  }
}
