/** One direction of a relay's pipe: what was sent, what the relay holds, what was delivered. */
module Link {
  import opened Bytes

  /** Sent and not yet read by the relay; read and not yet written; written and not yet delivered. */
  datatype Link<M> = Link(pushed: seq<M>, up: seq<M>, held: Option<M>, down: seq<M>, got: seq<M>, open: bool)

  function NewLink<M>(): Link<M> {
    Link([], [], None, [], [], true)
  }

  datatype LinkStep<M> = Push(m: M) | Read | Write | Deliver | Break(kept: nat)

  predicate LinkEnabled<M(==)>(l: Link<M>, e: LinkStep<M>) {
    match e
    case Push(_) => true
    case Read => l.open && l.held.None? && l.up != []
    case Write => l.open && l.held.Some?
    case Deliver => l.down != []
    case Break(kept) => kept <= |l.down|
  }

  /** forward reads one message and writes it; when either fails it stops, and what was on the way is lost. */
  function LinkApply<M(==)>(l: Link<M>, e: LinkStep<M>): Link<M>
    requires LinkEnabled(l, e)
  {
    match e
    case Push(m) => l.(pushed := l.pushed + [m], up := l.up + [m])
    case Read => l.(held := Some(l.up[0]), up := l.up[1..])
    case Write => l.(held := None, down := l.down + [l.held.value])
    case Deliver => l.(down := l.down[1..], got := l.got + [l.down[0]])
    case Break(kept) => l.(open := false, down := l.down[..kept])
  }

  function Holding<M>(l: Link<M>): seq<M> {
    if l.held.Some? then [l.held.value] else []
  }

  /**
   * What was delivered and what is still on the last leg is a prefix of what was sent; nothing is lost while the
   * link holds.
   */
  ghost predicate LinkOk<M>(l: Link<M>) {
    && l.got + l.down <= l.pushed
    && (l.open ==> l.got + l.down + Holding(l) + l.up == l.pushed)
  }

  lemma LinkStepOk<M>(l: Link<M>, e: LinkStep<M>)
    requires LinkOk(l) && LinkEnabled(l, e)
    ensures LinkOk(LinkApply(l, e))
  {
    var k := LinkApply(l, e);
    match e
    case Push(m) =>
      assert l.got + l.down + Holding(l) + (l.up + [m]) == l.got + l.down + Holding(l) + l.up + [m];
    case Read =>
      assert Holding(k) + k.up == l.up;
      assert k.got + k.down + Holding(k) + k.up == l.got + l.down + (Holding(k) + k.up);
    case Write =>
      assert k.got + k.down == l.got + l.down + Holding(l);
      assert k.got + k.down + Holding(k) + k.up == k.got + k.down + k.up;
    case Deliver =>
      assert k.got + k.down == l.got + l.down;
    case Break(kept) =>
      assert k.got + k.down == (l.got + l.down)[..|l.got| + kept];
  }
}
