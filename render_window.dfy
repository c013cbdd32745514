/** The GLFW rendering window: cached viewport size, the close request, and
    the fixed-timestep catch-up loop that renders and steps the scene.

    The GLFW window itself is reduced to its "should close" flag; key codes are
    GLFW's integer codes and actions GLFW's three key actions.  OpenGL calls
    that only change GPU state (viewport, clear, swap) have no counterpart.
 */
module Window {
  import opened Animation
  import opened Timing

  /** GLFW's key action reported to the key callback. */
  datatype Action = Release | Press | Repeat

  /** GLFW's key code for the Escape key. */
  const KeyEscape: int := 256

  /** Projection parameters used on every frame. */
  const FieldOfView: real := 45.0
  const NearPlane: real := 0.1
  const FarPlane: real := 100.0

  /** The fixed camera: at z = -2 looking at the origin, with +y up. */
  const Camera: View := LookAt(Vec3(0.0, 0.0, -2.0), Vec3(0.0, 0.0, 0.0), Vec3(0.0, 1.0, 0.0))

  /** The height the resize handler stores: a zero height becomes 1. */
  function ResizedHeight(height: int): (r: int)
    ensures r != 0
    ensures height != 0 ==> r == height
    ensures height == 0 ==> r == 1
  {
    if height == 0 then 1 else height
  }

  /** Width over height, as the cached aspect ratio. */
  function AspectOf(width: int, height: int): real
    requires height != 0
  {
    width as real / height as real
  }

  class RenderWindow {
    var width: int
    var height: int
    var aspect: real
    const title: string
    /** The GLFW window's "should close" flag. */
    var shouldClose: bool
    const scene: Scene

    /** The cached aspect ratio always matches the cached size, whose height is never zero. */
    ghost predicate Valid()
      reads this, scene
    {
      height != 0 && aspect == AspectOf(width, height) && scene.Valid()
    }

    /** Caches the requested size and its aspect ratio and creates a fresh scene. */
    constructor (width: int, height: int, title: string)
      requires height != 0
      ensures Valid()
      ensures this.width == width && this.height == height && this.title == title
      ensures aspect == AspectOf(width, height)
      ensures !shouldClose
      ensures fresh(scene) && scene.t == 0 && !scene.showCircle
    {
      this.width := width;
      this.height := height;
      this.aspect := AspectOf(width, height);
      this.title := title;
      this.shouldClose := false;
      this.scene := new Scene();
    }

    /** Resize handler: stores the new size with a zero height replaced by 1. */
    method FramebufferSizeCallback(newWidth: int, newHeight: int)
      requires Valid()
      modifies this`width, this`height, this`aspect
      ensures Valid()
      ensures width == newWidth && height == ResizedHeight(newHeight)
      ensures aspect == AspectOf(width, height)
      ensures shouldClose == old(shouldClose) && scene.t == old(scene.t)
    {
      var h := newHeight;
      if h == 0 {
        h := 1;
      }
      width, height := newWidth, h;
      aspect := AspectOf(newWidth, h);
    }

    /** Key handler: a press of Escape requests closing; nothing else changes the flag. */
    method OnKeyboard(key: int, action: Action)
      modifies this`shouldClose
      ensures action == Press && key == KeyEscape ==> shouldClose
      ensures !(action == Press && key == KeyEscape) ==> shouldClose == old(shouldClose)
    {
      if action == Press {
        if key == KeyEscape {
          shouldClose := true;
        }
      }
    }

    /** One frame: re-reads the framebuffer size, draws the scene, then steps it. */
    method Render(framebufferWidth: int, framebufferHeight: int) returns (d: DrawCall)
      requires Valid() && framebufferHeight != 0
      modifies this`width, this`height, this`aspect, scene`t
      ensures Valid()
      ensures width == framebufferWidth && height == framebufferHeight
      ensures d.projection == Perspective(FieldOfView, aspect, NearPlane, FarPlane)
      ensures d.view == Camera
      ensures d.thetaDegrees == old(scene.t) && d.showCircle == scene.showCircle
      ensures d.textureUnit == 0 && d.mode == TriangleStrip && d.first == 0 && d.count == 4
      ensures scene.t == NextAngle(old(scene.t))
      ensures shouldClose == old(shouldClose)
    {
      width, height := framebufferWidth, framebufferHeight;
      aspect := AspectOf(width, height);
      d := scene.Render(Perspective(FieldOfView, aspect, NearPlane, FarPlane), Camera);
      scene.Step();
    }

    /** The catch-up loop of one pass of the render loop: one render (and so one
        step) per whole `frameTime` slice elapsed since `previousTime`. */
    method CatchUp(previousTime: real, currentTime: real, frameTime: real,
                   framebufferWidth: int, framebufferHeight: int)
      returns (newPreviousTime: real, deltaTime: real, frames: seq<DrawCall>)
      requires Valid() && frameTime > 0.0
      requires WholeSlices(currentTime - previousTime, frameTime) > 0 ==> framebufferHeight != 0
      modifies this`width, this`height, this`aspect, scene`t
      ensures Valid()
      ensures newPreviousTime + deltaTime == currentTime
      ensures deltaTime < frameTime
      ensures currentTime - previousTime >= 0.0 ==> deltaTime >= 0.0
      ensures |frames| == WholeSlices(currentTime - previousTime, frameTime)
      ensures newPreviousTime == previousTime + SlicesDuration(|frames|, frameTime)
      ensures scene.t == (old(scene.t) + |frames|) % FullTurn
      ensures forall i :: 0 <= i < |frames| ==> frames[i].thetaDegrees == AngleAfter(old(scene.t), i)
      ensures |frames| > 0 ==> width == framebufferWidth && height == framebufferHeight
      ensures |frames| == 0 ==> width == old(width) && height == old(height)
      ensures shouldClose == old(shouldClose)
    {
      ghost var t0 := scene.t;
      ghost var elapsed := currentTime - previousTime;
      ghost var owed := WholeSlices(elapsed, frameTime);
      ghost var consumed := 0.0;
      newPreviousTime := previousTime;
      deltaTime := currentTime - previousTime;
      frames := [];
      while deltaTime >= frameTime
        invariant Valid()
        invariant consumed == SlicesDuration(|frames|, frameTime)
        invariant newPreviousTime == previousTime + consumed
        invariant deltaTime == elapsed - consumed
        invariant elapsed >= 0.0 ==> deltaTime >= 0.0
        invariant |frames| <= owed
        invariant scene.t == AngleAfter(t0, |frames|)
        invariant forall i :: 0 <= i < |frames| ==> frames[i].thetaDegrees == AngleAfter(t0, i)
        invariant |frames| > 0 ==> width == framebufferWidth && height == framebufferHeight
        invariant |frames| == 0 ==> width == old(width) && height == old(height)
        decreases owed - |frames|
      {
        SliceOwed(elapsed, frameTime, |frames|);
        assert framebufferHeight != 0;
        newPreviousTime := newPreviousTime + frameTime;
        deltaTime := deltaTime - frameTime;
        var d := Render(framebufferWidth, framebufferHeight);
        frames := frames + [d];
        consumed := consumed + frameTime;
      }
      SliceSettled(elapsed, frameTime, |frames|);
      AngleAfterIsOffset(t0, |frames|);
    }

    /** One pass of the render loop: stop if the window should close, otherwise
        catch up at `targetFps` frames per second. */
    method RunIteration(previousTime: real, currentTime: real, targetFps: int,
                        framebufferWidth: int, framebufferHeight: int)
      returns (running: bool, newPreviousTime: real, frames: seq<DrawCall>)
      requires Valid() && targetFps > 0
      requires !shouldClose && WholeSlices(currentTime - previousTime, FrameTime(targetFps)) > 0 ==> framebufferHeight != 0
      modifies this`width, this`height, this`aspect, scene`t
      ensures Valid()
      ensures running == !shouldClose && shouldClose == old(shouldClose)
      ensures !running ==> frames == [] && newPreviousTime == previousTime
      ensures !running ==> scene.t == old(scene.t) && width == old(width) && height == old(height)
      ensures running ==> |frames| == WholeSlices(currentTime - previousTime, FrameTime(targetFps))
      ensures running ==> newPreviousTime == previousTime + SlicesDuration(|frames|, FrameTime(targetFps))
      ensures running ==> currentTime - newPreviousTime < FrameTime(targetFps)
      ensures running && currentTime - previousTime >= 0.0 ==> currentTime - newPreviousTime >= 0.0
      ensures running && |frames| > 0 ==> width == framebufferWidth && height == framebufferHeight
      ensures |frames| == 0 ==> width == old(width) && height == old(height)
      ensures scene.t == (old(scene.t) + |frames|) % FullTurn
      ensures forall i :: 0 <= i < |frames| ==> frames[i].thetaDegrees == AngleAfter(old(scene.t), i)
    {
      running := !shouldClose;
      if !running {
        newPreviousTime, frames := previousTime, [];
        return;
      }
      var frameTime := FrameTime(targetFps);
      var deltaTime;
      newPreviousTime, deltaTime, frames := CatchUp(previousTime, currentTime, frameTime,
                                                    framebufferWidth, framebufferHeight);
    }
  }
}
