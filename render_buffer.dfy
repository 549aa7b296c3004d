/** Core/Rendering/RenderBuffer.cs: an off-screen framebuffer with one colour texture
    per registered channel. It is (re)allocated at the screen size whenever the screen
    size differs from the size it was last allocated at, which starts at 0 × 0, and
    each drawing pass into it is bracketed by the GL state it needs. */
module RenderBuffers {
  import opened Common
  import Dict
  import opened Raylib

  /** Named textures, in registration order. */
  type Channels = Dict.Dict<string, Texture2D>

  /** new Texture2D { Format = format, Mipmaps = 1 }: what a registration stores. */
  function Registered(format: PixelFormat): Texture2D {
    Texture2D(0, 0, 0, 1, format)
  }

  const IncompleteMessage := "[Render buffer]: Frame buffer not complete!"

  /** The ids of the textures. */
  function Ids(ts: Channels): set<Handle>
    decreases |ts|
  {
    if ts == [] then {} else Ids(ts[..|ts| - 1]) + {ts[|ts| - 1].1.id}
  }

  /** The unload of each texture, in list order. */
  function TextureUnloads(ts: Channels): seq<GpuCall>
    decreases |ts|
  {
    if ts == [] then [] else TextureUnloads(ts[..|ts| - 1]) + [UnloadTexture(ts[|ts| - 1].1)]
  }

  /** What Initialize frees first: the framebuffer `fb` and every texture, only when a
      framebuffer exists (fb != 0). */
  function Releases(fb: Handle, ts: Channels): seq<GpuCall> {
    if fb == 0 then [] else [UnloadFramebuffer(fb)] + TextureUnloads(ts)
  }

  /** The handles Releases frees. */
  function Released(fb: Handle, ts: Channels): set<Handle> {
    if fb == 0 then {} else {fb} + Ids(ts)
  }

  /** The texture channel i becomes in a reallocation into framebuffer `fb`: the same
      format and mip count, the new size, and the id rlgl returns for it, fb + 1 + i. */
  function Attached(t: Texture2D, fb: Handle, i: nat, w: int, h: int): Texture2D {
    t.(id := fb + 1 + i, width := w, height := h)
  }

  /** The allocation of texture t as channel i of framebuffer fb at w × h, and its
      attachment to colour slot i. */
  function AttachPair(t: Texture2D, fb: Handle, i: nat, w: int, h: int): seq<GpuCall> {
    var a := Attached(t, fb, i, w, h);
    [LoadRenderTexture(a.id, w, h, a.format, a.mipmaps), FramebufferAttach(fb, a.id, ColorChannel(i))]
  }

  /** The allocation and attachment of the first n textures, in list order. */
  function AttachCalls(ts: Channels, fb: Handle, w: int, h: int, n: nat): seq<GpuCall>
    requires n <= |ts|
  {
    seq(2 * n, k requires 0 <= k < 2 * n => AttachPair(ts[k / 2].1, fb, k / 2, w, h)[k % 2])
  }

  /** One more texture appends its pair. */
  lemma AttachCallsStep(ts: Channels, fb: Handle, w: int, h: int, n: nat)
    requires n < |ts|
    ensures AttachCalls(ts, fb, w, h, n + 1) == AttachCalls(ts, fb, w, h, n) + AttachPair(ts[n].1, fb, n, w, h)
  {
    var a, b := AttachCalls(ts, fb, w, h, n + 1), AttachCalls(ts, fb, w, h, n) + AttachPair(ts[n].1, fb, n, w, h);
    forall k | 0 <= k < 2 * n + 2
      ensures a[k] == b[k]
    {
      if k >= 2 * n {
        assert k / 2 == n;
      }
    }
  }

  /** The allocation of framebuffer fb at w × h, bound, with n draw buffers. */
  function OpenCalls(fb: Handle, w: int, h: int, n: nat): seq<GpuCall> {
    [LoadFramebuffer(fb, w, h), EnableFramebuffer(fb), ActiveDrawBuffers(n)]
  }

  /** The depth buffer `depth` attached to fb, the completeness check and the unbinding. */
  function CloseCalls(fb: Handle, depth: Handle, w: int, h: int, complete: bool): seq<GpuCall> {
    [LoadTextureDepth(depth, w, h), FramebufferAttach(fb, depth, DepthAttachment)]
    + (CompletenessLog(complete) + [DisableFramebuffer])
  }

  /** The error logged for an incomplete framebuffer. */
  function CompletenessLog(complete: bool): seq<GpuCall> {
    if complete then [] else [TraceLog(LogError, IncompleteMessage)]
  }

  /** Initialize, from a buffer whose framebuffer is fb0 with textures ts, at w × h into
      the new framebuffer fb; `complete` is rlFramebufferComplete(fb). */
  function InitCalls(fb0: Handle, ts: Channels, w: int, h: int, fb: Handle, complete: bool): seq<GpuCall> {
    Releases(fb0, ts) + BuildCalls(ts, w, h, fb, complete)
  }

  /** The allocation part of Initialize: framebuffer fb, then the textures, then the
      depth buffer fb + |ts| + 1. */
  function BuildCalls(ts: Channels, w: int, h: int, fb: Handle, complete: bool): seq<GpuCall> {
    OpenCalls(fb, w, h, |ts|) + (AttachCalls(ts, fb, w, h, |ts|) + CloseCalls(fb, fb + |ts| + 1, w, h, complete))
  }

  /** The state BeginBufferMode sets up, after the optional reallocation. */
  function BeginTail(fb: Handle): seq<GpuCall> {
    [DrawRenderBatchActive, EnableFramebuffer(fb), EnableDepthTest, DisableColorBlend, EnableDepthMask, ClearBackground(Blank)]
  }

  /** BeginBufferMode on a buffer allocated at `size` into framebuffer fb0 with textures
      ts, when the screen is `screen` and the next handle is h0 + 1. */
  function BeginCalls(ts: Channels, size: (int, int), fb0: Handle, screen: (int, int), h0: Handle, complete: Handle -> bool): seq<GpuCall> {
    if size != screen then InitCalls(fb0, ts, screen.0, screen.1, h0 + 1, complete(h0 + 1)) + BeginTail(h0 + 1)
    else BeginTail(fb0)
  }

  const EndCalls := [DrawRenderBatchActive, DisableFramebuffer, DisableDepthTest, EnableColorBlend, DisableDepthMask]

  /** The reallocation handles the textures in order, one pair of calls each: texture i
      is allocated at the new size with id fb + 1 + i, keeping its format and mip count,
      and attached to colour slot i of fb. */
  lemma AttachCallsInOrder(ts: Channels, fb: Handle, w: int, h: int, n: nat, i: nat)
    requires i < n <= |ts|
    ensures |AttachCalls(ts, fb, w, h, n)| == 2 * n
    ensures AttachCalls(ts, fb, w, h, n)[2 * i] == LoadRenderTexture(fb + 1 + i, w, h, ts[i].1.format, ts[i].1.mipmaps)
    ensures AttachCalls(ts, fb, w, h, n)[2 * i + 1] == FramebufferAttach(fb, fb + 1 + i, ColorChannel(i))
  {
    assert (2 * i) / 2 == i && (2 * i + 1) / 2 == i;
  }

  /** The framebuffer and the textures are freed only when a framebuffer exists, and then
      the framebuffer and every texture are. */
  lemma {:induction false} ReleasesOnlyExisting(fb: Handle, ts: Channels)
    ensures Releases(fb, ts) == [] <==> fb == 0
    ensures fb != 0 ==> UnloadFramebuffer(fb) in Releases(fb, ts)
    ensures fb != 0 ==> forall k :: 0 <= k < |ts| ==> UnloadTexture(ts[k].1) in Releases(fb, ts)
  {
    if fb != 0 {
      UnloadsEach(ts);
    }
  }

  lemma {:induction false} UnloadsEach(ts: Channels)
    ensures |TextureUnloads(ts)| == |ts|
    ensures forall k :: 0 <= k < |ts| ==> TextureUnloads(ts)[k] == UnloadTexture(ts[k].1)
    decreases |ts|
  {
    if ts != [] {
      UnloadsEach(ts[..|ts| - 1]);
    }
  }

  /** One more texture adds its id. */
  lemma IdsStep(ts: Channels, i: nat)
    requires i < |ts|
    ensures Ids(ts[..i + 1]) == Ids(ts[..i]) + {ts[i].1.id}
    ensures TextureUnloads(ts[..i + 1]) == TextureUnloads(ts[..i]) + [UnloadTexture(ts[i].1)]
  {
    assert ts[..i + 1][..i] == ts[..i];
  }

  /** The ids of textures all below a bound are below it. */
  lemma {:induction false} IdsBelow(ts: Channels, bound: Handle)
    requires forall k :: 0 <= k < |ts| ==> ts[k].1.id < bound
    ensures bound !in Ids(ts)
    decreases |ts|
  {
    if ts != [] {
      IdsBelow(ts[..|ts| - 1], bound);
    }
  }

  /** What the buffer's calls do to the GL state. */
  lemma StepUnloads(s: GpuState, fb: Handle, t: Texture2D)
    ensures Step(s, UnloadFramebuffer(fb)) == s.(live := s.live - {fb})
    ensures Step(s, UnloadTexture(t)) == s.(live := s.live - {t.id})
  {
  }

  lemma StepLoads(s: GpuState, id: Handle, w: int, h: int, f: PixelFormat, m: int)
    ensures Step(s, LoadFramebuffer(id, w, h)) == s.(live := s.live + {id})
    ensures Step(s, LoadRenderTexture(id, w, h, f, m)) == s.(live := s.live + {id})
    ensures Step(s, LoadTextureDepth(id, w, h)) == s.(live := s.live + {id})
  {
  }

  lemma StepBinds(s: GpuState, fb: Handle)
    ensures Step(s, EnableFramebuffer(fb)) == s.(framebuffer := fb)
    ensures Step(s, DisableFramebuffer) == s.(framebuffer := 0)
  {
  }

  lemma StepKeeps(s: GpuState, fb: Handle, id: Handle, a: Attachment, n: int)
    ensures Step(s, ActiveDrawBuffers(n)) == s && Step(s, FramebufferAttach(fb, id, a)) == s
  {
  }

  /** rlFramebufferComplete, logged when it fails. */
  method CheckComplete(fb: Handle, dev: Device)
    modifies dev
    ensures dev.calls == old(dev.calls) + CompletenessLog(dev.framebufferComplete(fb))
    ensures dev.state == old(dev.state)
    ensures dev.nextHandle == old(dev.nextHandle) && dev.Env() == old(dev.Env())
  {
    if !dev.framebufferComplete(fb) {
      dev.Log(LogError, IncompleteMessage);
    }
  }

  lemma StepDepthTest(s: GpuState)
    ensures Step(s, EnableDepthTest) == s.(depthTest := true)
    ensures Step(s, DisableDepthTest) == s.(depthTest := false)
  {
  }

  lemma StepColorBlend(s: GpuState)
    ensures Step(s, EnableColorBlend) == s.(colorBlend := true)
    ensures Step(s, DisableColorBlend) == s.(colorBlend := false)
  {
  }

  lemma StepDepthMask(s: GpuState)
    ensures Step(s, EnableDepthMask) == s.(depthMask := true)
    ensures Step(s, DisableDepthMask) == s.(depthMask := false)
  {
  }

  lemma StepDraws(s: GpuState, c: Color)
    ensures Step(s, DrawRenderBatchActive) == s && Step(s, ClearBackground(c)) == s
  {
  }

  /** The calls BeginBufferMode makes after the optional reallocation: fb bound, depth
      test on, blending off, depth writes on, cleared to transparent. */
  method EnterBuffer(fb: Handle, dev: Device)
    modifies dev
    ensures dev.calls == old(dev.calls) + BeginTail(fb)
    ensures dev.state == old(dev.state).(framebuffer := fb, depthTest := true, colorBlend := false, depthMask := true)
    ensures dev.nextHandle == old(dev.nextHandle) && dev.Env() == old(dev.Env())
  {
    ghost var s := dev.state;
    StepDraws(s, Blank);
    dev.Issue(DrawRenderBatchActive);
    StepBinds(s, fb);
    dev.Issue(EnableFramebuffer(fb));
    ghost var s1 := s.(framebuffer := fb);
    StepDepthTest(s1);
    dev.Issue(EnableDepthTest);
    ghost var s2 := s1.(depthTest := true);
    StepColorBlend(s2);
    dev.Issue(DisableColorBlend);
    ghost var s3 := s2.(colorBlend := false);
    StepDepthMask(s3);
    dev.Issue(EnableDepthMask);
    StepDraws(s3.(depthMask := true), Blank);
    dev.Issue(ClearBackground(Blank));
  }

  /** The unload loop of Initialize. */
  method UnloadTextures(ts: Channels, dev: Device)
    modifies dev
    ensures dev.calls == old(dev.calls) + TextureUnloads(ts)
    ensures dev.state == old(dev.state).(live := old(dev.state.live) - Ids(ts))
    ensures dev.nextHandle == old(dev.nextHandle) && dev.Env() == old(dev.Env())
  {
    var i := 0;
    while i < |ts|
      invariant 0 <= i <= |ts|
      invariant dev.calls == old(dev.calls) + TextureUnloads(ts[..i])
      invariant dev.state == old(dev.state).(live := old(dev.state.live) - Ids(ts[..i]))
      invariant dev.nextHandle == old(dev.nextHandle) && dev.Env() == old(dev.Env())
    {
      StepUnloads(dev.state, 0, ts[i].1);
      dev.Issue(UnloadTexture(ts[i].1));
      IdsStep(ts, i);
      i := i + 1;
    }
    assert ts[..i] == ts;
  }

  class RenderBuffer {
    var textures: Channels
    var width: int
    var height: int
    var bufferId: Handle
    var depthBufferId: Handle

    /** Once allocated, the depth buffer's id is above the framebuffer's and every
        texture's: Initialize allocates it last. */
    ghost predicate Valid()
      reads this
    {
      bufferId != 0 ==> bufferId < depthBufferId && forall k :: 0 <= k < |textures| ==> textures[k].1.id < depthBufferId
    }

    /** No channel, size 0 × 0, nothing allocated. */
    constructor ()
      ensures textures == [] && width == 0 && height == 0 && bufferId == 0 && depthBufferId == 0
      ensures Valid()
    {
      textures := [];
      width, height := 0, 0;
      bufferId, depthBufferId := 0, 0;
    }

    /** Textures: ToDictionary of the channel list, which throws (None) when two
        channels share a name. */
    function Textures(): Option<Channels>
      reads this
    {
      Dict.ToDictionary(textures)
    }

    /** RegisterTexture: appends the channel, without checking its name. */
    method RegisterTexture(name: string, format: PixelFormat)
      requires Valid()
      modifies this`textures
      ensures textures == old(textures) + [(name, Registered(format))]
      ensures Valid()
    {
      textures := textures + [(name, Registered(format))];
    }

    /** The first step of Initialize: an existing framebuffer is freed with its
        textures; the depth buffer is not. */
    method Release(dev: Device)
      requires Valid()
      modifies dev
      ensures dev.calls == old(dev.calls) + Releases(bufferId, textures)
      ensures dev.state == old(dev.state).(live := old(dev.state.live) - Released(bufferId, textures))
      ensures bufferId != 0 ==> depthBufferId !in Released(bufferId, textures)
      ensures dev.nextHandle == old(dev.nextHandle) && dev.Env() == old(dev.Env())
    {
      if bufferId != 0 {
        StepUnloads(dev.state, bufferId, NoTexture);
        dev.Issue(UnloadFramebuffer(bufferId));
        UnloadTextures(textures, dev);
        IdsBelow(textures, depthBufferId);
        assert dev.state.live == old(dev.state.live) - Released(bufferId, textures);
      }
    }

    /** The framebuffer is allocated at the stored size and bound, with one draw buffer
        per channel. */
    method Open(dev: Device)
      modifies this`bufferId, dev
      ensures bufferId == old(dev.nextHandle) + 1
      ensures dev.calls == old(dev.calls) + OpenCalls(bufferId, width, height, |textures|)
      ensures dev.state == old(dev.state).(live := old(dev.state.live) + {bufferId}, framebuffer := bufferId)
      ensures dev.nextHandle == bufferId && dev.Env() == old(dev.Env())
    {
      var w, h, n := width, height, |textures|;
      var fb := dev.NewHandle();
      ghost var s := dev.state;
      StepLoads(s, fb, w, h, OtherFormat(0), 0);
      dev.Issue(LoadFramebuffer(fb, w, h));
      ghost var s1 := s.(live := s.live + {fb});
      StepBinds(s1, fb);
      dev.Issue(EnableFramebuffer(fb));
      StepKeeps(s1.(framebuffer := fb), fb, 0, DepthAttachment, n);
      dev.Issue(ActiveDrawBuffers(n));
      bufferId := fb;
    }

    /** One turn of the texture loop: texture i is allocated at the stored size and
        attached to colour slot i. */
    method AttachOne(i: nat, fb: Handle, dev: Device)
      requires i < |textures| && dev.nextHandle == fb + i
      modifies this`textures, dev
      ensures textures == old(textures)[i := (old(textures)[i].0, Attached(old(textures)[i].1, fb, i, width, height))]
      ensures dev.calls == old(dev.calls) + AttachPair(old(textures)[i].1, fb, i, width, height)
      ensures dev.state == old(dev.state).(live := old(dev.state.live) + {fb + 1 + i})
      ensures dev.nextHandle == fb + i + 1 && dev.Env() == old(dev.Env())
    {
      var t := textures[i].1;
      var w, h := width, height;
      var id := dev.NewHandle();
      ghost var s := dev.state;
      StepLoads(s, id, w, h, t.format, t.mipmaps);
      dev.Issue(LoadRenderTexture(id, w, h, t.format, t.mipmaps));
      StepKeeps(s.(live := s.live + {id}), fb, id, ColorChannel(i), 0);
      dev.Issue(FramebufferAttach(fb, id, ColorChannel(i)));
      textures := textures[i := (textures[i].0, t.(id := id, width := w, height := h))];
    }

    /** The texture loop of Initialize: texture i is allocated at the stored size and
        attached to colour slot i. */
    method AttachTextures(fb: Handle, dev: Device)
      requires dev.nextHandle == fb
      modifies this`textures, dev
      ensures |textures| == |old(textures)|
      ensures forall k :: 0 <= k < |textures| ==>
        textures[k] == (old(textures)[k].0, Attached(old(textures)[k].1, fb, k, width, height))
      ensures dev.calls == old(dev.calls) + AttachCalls(old(textures), fb, width, height, |textures|)
      ensures dev.state == old(dev.state).(live := dev.state.live)
      ensures old(dev.state.live) <= dev.state.live
      ensures forall k :: 0 <= k < |textures| ==> textures[k].1.id in dev.state.live
      ensures dev.nextHandle == fb + |textures| && dev.Env() == old(dev.Env())
    {
      ghost var ts := textures;
      var i := 0;
      while i < |textures|
        invariant 0 <= i <= |textures| == |ts|
        invariant forall k :: 0 <= k < |textures| ==>
          textures[k] == if k < i then (ts[k].0, Attached(ts[k].1, fb, k, width, height)) else ts[k]
        invariant dev.calls == old(dev.calls) + AttachCalls(ts, fb, width, height, i)
        invariant dev.state == old(dev.state).(live := dev.state.live)
        invariant old(dev.state.live) <= dev.state.live
        invariant forall k :: 0 <= k < i ==> textures[k].1.id in dev.state.live
        invariant dev.nextHandle == fb + i && dev.Env() == old(dev.Env())
      {
        AttachOne(i, fb, dev);
        AttachCallsStep(ts, fb, width, height, i);
        AppendAssoc(old(dev.calls), AttachCalls(ts, fb, width, height, i), AttachPair(ts[i].1, fb, i, width, height));
        i := i + 1;
      }
    }

    /** The last steps of Initialize: the depth buffer is allocated and attached, an
        incomplete framebuffer is logged, and the framebuffer is unbound. */
    method Close(dev: Device)
      modifies this`depthBufferId, dev
      ensures depthBufferId == old(dev.nextHandle) + 1
      ensures dev.calls == old(dev.calls) + CloseCalls(bufferId, depthBufferId, width, height, dev.framebufferComplete(bufferId))
      ensures dev.state == old(dev.state).(live := old(dev.state.live) + {depthBufferId}, framebuffer := 0)
      ensures dev.nextHandle == depthBufferId && dev.Env() == old(dev.Env())
    {
      var w, h, fb := width, height, bufferId;
      var depth := dev.NewHandle();
      ghost var c := dev.calls;
      ghost var s := dev.state;
      StepLoads(s, depth, w, h, OtherFormat(0), 0);
      dev.Issue(LoadTextureDepth(depth, w, h));
      ghost var s1 := s.(live := s.live + {depth});
      StepKeeps(s1, fb, depth, DepthAttachment, 0);
      dev.Issue(FramebufferAttach(fb, depth, DepthAttachment));
      ghost var a := [LoadTextureDepth(depth, w, h), FramebufferAttach(fb, depth, DepthAttachment)];
      assert dev.calls == c + a;
      CheckComplete(fb, dev);
      ghost var l := CompletenessLog(dev.framebufferComplete(fb));
      StepBinds(s1, 0);
      dev.Issue(DisableFramebuffer);
      AppendAssoc(c + a, l, [DisableFramebuffer]);
      AppendAssoc(c, a, l + [DisableFramebuffer]);
      depthBufferId := depth;
    }

    /** The allocation part of Initialize: a framebuffer at the stored size, a new
        texture per channel and a new depth buffer, with no framebuffer bound after. */
    method Build(dev: Device)
      modifies this`textures, this`bufferId, this`depthBufferId, dev
      ensures bufferId == old(dev.nextHandle) + 1 && depthBufferId == bufferId + |textures| + 1
      ensures |textures| == |old(textures)|
      ensures forall k :: 0 <= k < |textures| ==>
        textures[k] == (old(textures)[k].0, Attached(old(textures)[k].1, bufferId, k, width, height))
      ensures dev.calls == old(dev.calls) + BuildCalls(old(textures), width, height, bufferId, dev.framebufferComplete(bufferId))
      ensures dev.state == old(dev.state).(live := dev.state.live, framebuffer := 0)
      ensures old(dev.state.live) <= dev.state.live
      ensures bufferId in dev.state.live && depthBufferId in dev.state.live
      ensures forall k :: 0 <= k < |textures| ==> textures[k].1.id in dev.state.live
      ensures dev.nextHandle == depthBufferId && dev.Env() == old(dev.Env())
    {
      ghost var c0 := dev.calls;
      ghost var ts := textures;
      Open(dev);
      ghost var o := OpenCalls(bufferId, width, height, |ts|);
      AttachTextures(bufferId, dev);
      ghost var a := AttachCalls(ts, bufferId, width, height, |ts|);
      Close(dev);
      ghost var c := CloseCalls(bufferId, depthBufferId, width, height, dev.framebufferComplete(bufferId));
      AppendAssoc(c0 + o, a, c);
      AppendAssoc(c0, o, a + c);
    }

    /** Initialize: frees the old framebuffer and textures if a framebuffer exists (but
        never the old depth buffer), allocates a framebuffer at the stored size,
        attaches a new texture per channel and a new depth buffer, logs an error if the
        framebuffer is incomplete, and leaves no framebuffer bound. */
    method Initialize(dev: Device)
      requires Valid()
      modifies this`textures, this`bufferId, this`depthBufferId, dev
      ensures bufferId == old(dev.nextHandle) + 1 && depthBufferId == bufferId + |textures| + 1
      ensures |textures| == |old(textures)|
      ensures forall k :: 0 <= k < |textures| ==>
        textures[k] == (old(textures)[k].0, Attached(old(textures)[k].1, bufferId, k, width, height))
      ensures dev.calls == old(dev.calls) + InitCalls(old(bufferId), old(textures), width, height, bufferId, dev.framebufferComplete(bufferId))
      ensures dev.state == old(dev.state).(live := dev.state.live, framebuffer := 0)
      ensures bufferId in dev.state.live && depthBufferId in dev.state.live
      ensures forall k :: 0 <= k < |textures| ==> textures[k].1.id in dev.state.live
      ensures old(depthBufferId) in old(dev.state.live) ==> old(depthBufferId) in dev.state.live
      ensures dev.nextHandle == depthBufferId && dev.Env() == old(dev.Env())
      ensures Valid()
    {
      ghost var c0 := dev.calls;
      Release(dev);
      ghost var r := Releases(old(bufferId), old(textures));
      Build(dev);
      AppendAssoc(c0, r, BuildCalls(old(textures), width, height, bufferId, dev.framebufferComplete(bufferId)));
    }

    /** BeginBufferMode: when the screen size differs from the stored one, the size is
        stored and the buffer reallocated; then the buffer is bound for drawing with
        depth test and depth writes on and blending off, and cleared. */
    method BeginBufferMode(dev: Device)
      requires Valid()
      modifies this, dev
      ensures width == dev.screenWidth && height == dev.screenHeight
      ensures dev.calls == old(dev.calls) + BeginCalls(old(textures), (old(width), old(height)), old(bufferId),
        (dev.screenWidth, dev.screenHeight), old(dev.nextHandle), dev.framebufferComplete)
      ensures dev.state == old(dev.state).(live := dev.state.live, framebuffer := bufferId, depthTest := true, colorBlend := false, depthMask := true)
      ensures (old(width), old(height)) == (width, height) ==>
        textures == old(textures) && bufferId == old(bufferId) && depthBufferId == old(depthBufferId)
        && dev.state.live == old(dev.state.live) && dev.nextHandle == old(dev.nextHandle)
      ensures (old(width), old(height)) != (width, height) ==>
        bufferId == old(dev.nextHandle) + 1 && depthBufferId == bufferId + |textures| + 1 && dev.nextHandle == depthBufferId
        && bufferId in dev.state.live && depthBufferId in dev.state.live
      ensures |textures| == |old(textures)|
      ensures forall k :: 0 <= k < |textures| ==> textures[k].0 == old(textures)[k].0 && textures[k].1.format == old(textures)[k].1.format
      ensures old(depthBufferId) in old(dev.state.live) ==> old(depthBufferId) in dev.state.live
      ensures dev.Env() == old(dev.Env())
      ensures Valid()
    {
      ghost var c0 := dev.calls;
      Fit(dev);
      ghost var f := dev.calls[|c0|..];
      assert dev.calls == c0 + f;
      EnterBuffer(bufferId, dev);
      AppendAssoc(c0, f, BeginTail(bufferId));
    }

    /** The first half of BeginBufferMode: the reallocation at a new screen size. */
    method Fit(dev: Device)
      requires Valid()
      modifies this, dev
      ensures width == dev.screenWidth && height == dev.screenHeight
      ensures (old(width), old(height)) == (width, height) ==>
        textures == old(textures) && bufferId == old(bufferId) && depthBufferId == old(depthBufferId)
        && dev.calls == old(dev.calls) && dev.state == old(dev.state) && dev.nextHandle == old(dev.nextHandle)
      ensures (old(width), old(height)) != (width, height) ==>
        bufferId == old(dev.nextHandle) + 1 && depthBufferId == bufferId + |textures| + 1 && dev.nextHandle == depthBufferId
        && bufferId in dev.state.live && depthBufferId in dev.state.live
        && dev.calls == old(dev.calls) + InitCalls(old(bufferId), old(textures), width, height, bufferId, dev.framebufferComplete(bufferId))
        && dev.state == old(dev.state).(live := dev.state.live, framebuffer := 0)
      ensures |textures| == |old(textures)|
      ensures forall k :: 0 <= k < |textures| ==> textures[k].0 == old(textures)[k].0 && textures[k].1.format == old(textures)[k].1.format
      ensures old(depthBufferId) in old(dev.state.live) ==> old(depthBufferId) in dev.state.live
      ensures dev.Env() == old(dev.Env())
      ensures Valid()
    {
      var w, h := dev.screenWidth, dev.screenHeight;
      if width != w || height != h {
        width, height := w, h;
        Initialize(dev);
      }
    }

    /** EndBufferMode: the default framebuffer is bound again, with depth test and depth
        writes off and blending on. */
    method EndBufferMode(dev: Device)
      modifies dev
      ensures dev.calls == old(dev.calls) + EndCalls
      ensures dev.state == old(dev.state).(framebuffer := 0, depthTest := false, colorBlend := true, depthMask := false)
      ensures dev.nextHandle == old(dev.nextHandle) && dev.Env() == old(dev.Env())
    {
      ghost var s := dev.state;
      StepDraws(s, Blank);
      dev.Issue(DrawRenderBatchActive);
      StepBinds(s, 0);
      dev.Issue(DisableFramebuffer);
      ghost var s1 := s.(framebuffer := 0);
      StepDepthTest(s1);
      dev.Issue(DisableDepthTest);
      ghost var s2 := s1.(depthTest := false);
      StepColorBlend(s2);
      dev.Issue(EnableColorBlend);
      StepDepthMask(s2.(colorBlend := true));
      dev.Issue(DisableDepthMask);
    }
  }
}
