/** The size of a surface, and when a commit that changes it says so. */
module SurfaceSize {
  import opened Seqs
  import opened SurfaceTree
  import opened AtomicCommit

  /** To the nearest integer, halves away from zero. */
  function Round(x: real): int {
    if x >= 0.0 then (x + 0.5).Floor else -(-x + 0.5).Floor
  }

  /** `Surface::size`, given that the scale can divide. */
  function SizeOf(st: SurfaceState): Size
    requires st.scale != 0
  {
    if st.buffer.None? then NO_SIZE
    else if st.destination.Valid() then st.destination
    else if st.sourceRect.Valid() then Size(Round(st.sourceRect.width), Round(st.sourceRect.height))
    else Scaled(st.buffer.value.size, st.scale)
  }

  function Scaled(size: Size, scale: int): Size
    requires scale != 0
  {
    Size(Round(size.width as real / scale as real), Round(size.height as real / scale as real))
  }

  /** The one way to change the size unannounced: the source rectangle alone decided it, is unset, and
      neither buffer size, scale nor destination change with it. */
  predicate UnsetsSourceOnly(cur: SurfaceState, src: SurfaceState)
    requires cur.scale != 0
  {
    && cur.buffer.Some? && !cur.destination.Valid() && cur.sourceRect.Valid()
    && SourceSet in src.updates && !src.sourceRect.Valid()
    && !src.destinationIsSet
    && (ScaleSet in src.updates ==> src.scale == cur.scale)
    && (BufferSet in src.updates ==> src.buffer.Some? && src.buffer.value.size == cur.buffer.value.size)
    && SizeOf(cur) != Scaled(cur.buffer.value.size, cur.scale)
  }

  /** A patch that leaves the surface with a valid buffer changes the size without raising the size
      flag exactly when it only unsets the source rectangle. */
  lemma SizeFlagIsComplete(cur: SurfaceState, src: SurfaceState)
    requires cur.scale != 0 && Patched(cur, src).scale != 0
    requires !src.destinationIsSet ==> src.destination == NO_SIZE
    requires Resized !in src.updates
    requires Patched(cur, src).buffer.Some? && Patched(cur, src).buffer.value.size.Valid()
    ensures
      var r := Patched(cur, src);
      SizeOf(r) != SizeOf(cur) && Resized !in r.updates <==> UnsetsSourceOnly(cur, src)
  {
    var r := Patched(cur, src);
    if Resized !in r.updates {
      Unannounced(cur, src);
    }
  }

  /** Without the size flag, all that can have changed is the source rectangle, to an invalid one. */
  lemma Unannounced(cur: SurfaceState, src: SurfaceState)
    requires !src.destinationIsSet ==> src.destination == NO_SIZE
    requires Patched(cur, src).buffer.Some? && Patched(cur, src).buffer.value.size.Valid()
    requires Resized !in Patched(cur, src).updates
    ensures
      var r := Patched(cur, src);
      && cur.buffer.Some? && r.buffer.value.size == cur.buffer.value.size
      && r.scale == cur.scale && r.destination == cur.destination && !src.destinationIsSet
      && (r.sourceRect == cur.sourceRect || (SourceSet in src.updates && !src.sourceRect.Valid()))
  {
  }

  /** When the size flag is raised at all: on a surface with content whose scale changes, whose source
      rectangle is set to a valid one that decides the size, whose destination is set, or which gets a
      buffer of another size. */
  lemma SizeFlagIff(cur: SurfaceState, src: SurfaceState)
    requires Resized !in src.updates
    ensures
      var r := Patched(cur, src);
      Resized in r.updates <==>
        && r.buffer.Some?
        && (|| r.scale != cur.scale
            || (SourceSet in src.updates && src.sourceRect.Valid() && !src.destination.Valid())
            || src.destinationIsSet
            || (BufferSet in src.updates && r.buffer.value.size.Valid()
                && !(cur.buffer.Some? && cur.buffer.value.size == r.buffer.value.size)))
  {
  }

  /** In a committed tree, every surface that took a state and still shows a valid buffer has the size
      flag whenever its size changed, but for that one way. */
  lemma CommitAnnouncesSizes(t: Tree, s: Surface, x: Surface)
    requires Valid(t) && s in t.surf && !SyncedRole(t.shape, s) && x in t.surf
    requires Takes(DoCommit(t, s), s, x) && (x != s ==> t.shape.role[x] != null)
    requires t.surf[x].current.scale != 0 && DoCommit(t, s).surf[x].current.scale != 0
    requires
      var buffer := DoCommit(t, s).surf[x].current.buffer;
      buffer.Some? && buffer.value.size.Valid()
    ensures
      var before, after := t.surf[x].current, DoCommit(t, s).surf[x].current;
      SizeOf(after) != SizeOf(before) && Resized !in after.updates
      <==> UnsetsSourceOnly(before, TakenState(t, s, FromPending, x))
  {
    hide DoCommit, Patched;
    TakenCurrent(t, s, x);
    SourceIsOk(t, x, if x == s then FromPending else FromCached);
    SizeFlagIsComplete(t.surf[x].current, TakenState(t, s, FromPending, x));
  }

  /** The way exists: a 100 by 100 buffer shown through a 50 by 50 source rectangle that is then unset. */
  lemma UnsetSourceGrowsSilently()
    ensures
      var cur := Blank([]).(buffer := Some(Buffer(0, Size(100, 100))), sourceRect := Rect(0.0, 0.0, 50.0, 50.0));
      var src := Blank([]).(updates := {SourceSet});
      && SizeOf(cur) == Size(50, 50) && SizeOf(Patched(cur, src)) == Size(100, 100)
      && Resized !in Patched(cur, src).updates
  {
  }

  // ---------------------------------------------------------------- the transform

  /** No operation raises the transform flag, so a patch never takes a transform. */
  lemma TransformIsNeverTaken(t: Tree, s: Surface, from: Source)
    requires Valid(t) && s in t.surf && (from == FromCached ==> t.shape.role[s] != null)
    ensures Patched(t.surf[s].current, SourceState(t, s, from)).transform == t.surf[s].current.transform
  {
    SourceIsOk(t, s, from);
  }
}
