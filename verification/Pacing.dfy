/** Frame pacing (surface.cpp) and the per-frame argument ring that relies on it (examples/common/gpu_args). */
module Pacing {
  import opened Bits
  import P = PointerMap

  const MAX_IN_FLIGHT: nat := 4

  /**
   * configure_surface: the latency installed for a requested one and a swapchain's image count, refused outside
   * 1 to 4, else the smaller of the two.
   */
  function Latency(requested: nat, images: nat): (r: Option<nat>)
    ensures r.Some? <==> 1 <= requested <= 4
    ensures r.Some? ==> r.value <= requested && r.value <= images && (r.value == requested || r.value == images)
  {
    if requested == 0 || requested > MAX_IN_FLIGHT then None
    else Some(if requested < images then requested else images)
  }

  /** The semaphore value that acquiring frame n waits for; frame k signals k + 1 when it finishes. */
  function WaitValue(n: nat, latency: nat): nat {
    if n >= latency then n + 1 - latency else 0
  }

  /** The frames up to n that are unfinished when the counter stands at a value. */
  function Unfinished(n: nat, counter: nat): nat {
    if counter <= n then n + 1 - counter else 0
  }

  /**
   * Waiting for that value is exactly what keeps the frames in flight, the acquired one included, within
   * the latency.
   */
  lemma WaitIsExact(n: nat, latency: nat, counter: nat)
    requires latency > 0
    ensures counter >= WaitValue(n, latency) <==> Unfinished(n, counter) <= latency
  {
  }

  /** An acquire slot is used again only by a frame for which the slot's previous frame has finished. */
  lemma AcquireSlotFree(n: nat, m: nat, latency: nat, counter: nat)
    requires latency > 0 && m < n && m % latency == n % latency && counter >= WaitValue(n, latency)
    ensures m < counter
  {
    SameSlot(n, m, latency);
  }

  /** Different frames of one slot are a whole number of rounds apart. */
  lemma SameSlot(n: nat, m: nat, slots: nat)
    requires slots > 0 && m < n && m % slots == n % slots
    ensures m + slots <= n
  {
    var q, r := n / slots, m / slots;
    assert n == slots * q + n % slots && m == slots * r + m % slots;
    if q <= r {
      P.MulAtLeast(slots, 1);
      Monotone(q, r, slots);
      assert false;
    }
    Monotone(r + 1, q, slots);
    assert slots * (r + 1) == slots * r + slots;
  }

  lemma Monotone(a: nat, b: nat, c: nat)
    requires a <= b
    ensures c * a <= c * b
  {
  }

  // --- The argument ring ------------------------------------------------------------------

  /** A range of the ring's buffer that a frame has written. */
  datatype Write = Write(frame: nat, lo: nat, hi: nat)

  function SliceBase(frame: nat, cap: nat): nat {
    frame % MAX_IN_FLIGHT * cap
  }

  predicate InSlice(w: Write, cap: nat) {
    SliceBase(w.frame, cap) <= w.lo < w.hi <= SliceBase(w.frame, cap) + cap
  }

  predicate Overlap(a: Write, b: Write) {
    a.lo < b.hi && b.lo < a.hi
  }

  /** Overlapping writes of different frames use the same slice, hence are four frames apart or more. */
  lemma OverlapApart(a: Write, b: Write, cap: nat)
    requires InSlice(a, cap) && InSlice(b, cap) && Overlap(a, b) && a.frame < b.frame
    ensures a.frame + MAX_IN_FLIGHT <= b.frame
  {
    var i, j := a.frame % MAX_IN_FLIGHT, b.frame % MAX_IN_FLIGHT;
    if i < j {
      Monotone(i + 1, j, cap);
      assert false;
    } else if j < i {
      Monotone(j + 1, i, cap);
      assert false;
    }
    SameSlot(b.frame, a.frame, MAX_IN_FLIGHT);
  }

  datatype Phase = Idle | Acquired | Writing | Submitted | Presented

  /**
   * A surface and a ring driven in step: each frame acquires, writes its arguments, is submitted with its
   * signal, and presents. `finished` is the frame semaphore's counter.
   */
  class FrameLoop {
    const latency: nat
    const cap: nat
    const buffer: nat
    /** Surface::frame_idx and GpuArgs::frame_idx. */
    var frame: nat
    var argsFrame: nat
    var offsets: seq<nat>
    var finished: nat
    ghost var phase: Phase
    ghost var writes: seq<Write>

    ghost predicate Valid()
      reads this
    {
      && 0 < latency <= MAX_IN_FLIGHT && |offsets| == MAX_IN_FLIGHT
      && (forall i :: 0 <= i < |offsets| ==> offsets[i] <= cap)
      && argsFrame == (if phase == Presented then frame - 1 else frame) && (phase == Presented ==> frame > 0)
      && finished <= frame + (if phase == Submitted then 1 else 0)
      && (phase == Acquired || phase == Writing || phase == Submitted ==> finished >= WaitValue(frame, latency))
      && (forall i :: 0 <= i < |writes| ==> InSlice(writes[i], cap) && writes[i].frame <= argsFrame)
      && (phase == Idle || phase == Acquired ==> forall i :: 0 <= i < |writes| ==> writes[i].frame < argsFrame)
      && (phase == Writing ==> forall i :: 0 <= i < |writes| && writes[i].frame == argsFrame ==>
           writes[i].hi <= SliceBase(argsFrame, cap) + offsets[argsFrame % MAX_IN_FLIGHT])
      && NoClash(writes)
    }

    /** No two ranges of one frame overlap. */
    ghost predicate NoClash(ws: seq<Write>) {
      forall i, j :: 0 <= i < j < |ws| && ws[i].frame == ws[j].frame ==> !Overlap(ws[i], ws[j])
    }

    /** The GPU may still read what an unfinished frame wrote. */
    ghost predicate Readable(w: Write)
      reads this
    {
      w.frame >= finished
    }

    constructor (requested: nat, images: nat, cap: nat, buffer: nat)
      requires Latency(requested, images).Some? && images > 0
      ensures Valid() && phase == Idle && frame == 0 && writes == [] && latency <= requested && latency <= images
      ensures latency == requested || latency == images
    {
      latency := Latency(requested, images).value;
      this.cap, this.buffer := cap, buffer;
      frame, argsFrame, finished := 0, 0, 0;
      offsets := seq(MAX_IN_FLIGHT, _ => 0);
      phase, writes := Idle, [];
    }

    /** get_current_texture: returns once the counter has reached the awaited value. */
    method GetCurrentTexture(counter: nat) returns (slot: nat)
      requires Valid() && phase == Idle && finished <= counter <= frame && counter >= WaitValue(frame, latency)
      modifies this
      ensures Valid() && phase == Acquired && frame == old(frame) && writes == old(writes) && finished == counter
      ensures argsFrame == old(argsFrame) && offsets == old(offsets)
      ensures Unfinished(frame, finished) <= latency
      ensures slot == frame % latency && forall m: nat :: m < frame && m % latency == slot ==> m < finished
    {
      finished := counter;
      phase := Acquired;
      slot := frame % latency;
      forall m: nat | m < frame && m % latency == slot
        ensures m < finished
      {
        AcquireSlotFree(frame, m, latency, finished);
      }
    }

    /** gpu_args_begin_frame. */
    method BeginArgs()
      requires Valid() && phase == Acquired
      modifies this
      ensures Valid() && phase == Writing && frame == old(frame) && writes == old(writes) && finished == old(finished)
      ensures argsFrame == old(argsFrame) && offsets == old(offsets)[argsFrame % MAX_IN_FLIGHT := 0]
    {
      offsets := offsets[argsFrame % MAX_IN_FLIGHT := 0];
      phase := Writing;
    }

    /**
     * gpu_args_append: the address of `size` fresh bytes, or 0 when the slice is full. Nothing that an
     * unfinished frame can read is overwritten, this frame's earlier arguments included.
     */
    method Append(size: nat, align: nat) returns (address: nat)
      requires Valid() && phase == Writing && size > 0
      requires 8 <= align <= P.MAX_ALIGN && P.PowerOfTwo(align) && cap + align <= P.U64
      modifies this
      ensures Valid() && phase == Writing && frame == old(frame) && argsFrame == old(argsFrame) && finished == old(finished)
      ensures var at := P.AlignUp(old(offsets)[argsFrame % MAX_IN_FLIGHT], align);
        if at + size > cap then address == 0 && writes == old(writes) && offsets == old(offsets)
        else
          var w := Write(argsFrame, SliceBase(argsFrame, cap) + at, SliceBase(argsFrame, cap) + at + size);
          && address == buffer + w.lo && writes == old(writes) + [w]
          && offsets == old(offsets)[argsFrame % MAX_IN_FLIGHT := at + size]
          && (forall i :: 0 <= i < |old(writes)| && Readable(old(writes)[i]) ==> !Overlap(old(writes)[i], w))
    {
      var slot := argsFrame % MAX_IN_FLIGHT;
      P.AlignUpIs(offsets[slot], align);
      var offset := P.AlignUp(offsets[slot], align);
      if offset + size > cap {
        return 0;
      }
      var base := SliceBase(argsFrame, cap);
      ghost var w := Write(argsFrame, base + offset, base + offset + size);
      Untouched(w);
      offsets := offsets[slot := offset + size];
      address := buffer + base + offset;
      writes := writes + [w];
    }

    /** A range past this frame's arguments in its slice meets no readable one. */
    lemma Untouched(w: Write)
      requires Valid() && phase == Writing && InSlice(w, cap) && w.frame == argsFrame
      requires w.lo >= SliceBase(argsFrame, cap) + offsets[argsFrame % MAX_IN_FLIGHT]
      ensures forall i :: 0 <= i < |writes| && (Readable(writes[i]) || writes[i].frame == argsFrame) ==> !Overlap(writes[i], w)
    {
      forall i | 0 <= i < |writes| && (Readable(writes[i]) || writes[i].frame == argsFrame)
        ensures !Overlap(writes[i], w)
      {
        if writes[i].frame < argsFrame && Overlap(writes[i], w) {
          OverlapApart(writes[i], w, cap);
          assert false;
        }
      }
    }

    /** The submission that signals the frame. */
    method Submit()
      requires Valid() && phase == Writing
      modifies this
      ensures Valid() && phase == Submitted && frame == old(frame) && writes == old(writes) && finished == old(finished)
      ensures argsFrame == old(argsFrame) && offsets == old(offsets)
    {
      phase := Submitted;
    }

    /** The GPU finishes submitted frames, in order. */
    method Progress(counter: nat)
      requires Valid() && finished <= counter <= frame + (if phase == Submitted then 1 else 0)
      modifies this
      ensures Valid() && phase == old(phase) && frame == old(frame) && writes == old(writes) && finished == counter
      ensures argsFrame == old(argsFrame) && offsets == old(offsets)
    {
      finished := counter;
    }

    /** present. */
    method Present()
      requires Valid() && phase == Submitted
      modifies this
      ensures Valid() && phase == Presented && frame == old(frame) + 1 && writes == old(writes) && finished == old(finished)
      ensures argsFrame == old(argsFrame) && offsets == old(offsets)
    {
      frame := frame + 1;
      phase := Presented;
    }

    /** gpu_args_end_frame. */
    method EndArgs()
      requires Valid() && phase == Presented
      modifies this
      ensures Valid() && phase == Idle && frame == old(frame) && writes == old(writes) && finished == old(finished)
      ensures argsFrame == old(argsFrame) + 1 && offsets == old(offsets)
    {
      argsFrame := argsFrame + 1;
      phase := Idle;
    }
  }
}
