/// experiments/flair_experiment.py: the episode bookkeeping of the front-RGB
/// experiment. The termination counters (idle time, episode time, collision
/// count, the sticky `collided` flag) and the three-slot image history that
/// builds the stacked observation are fields updated in place. Images are an
/// opaque type `F`; the post-processing of the raw camera frame is the
/// function parameter `postProcess`.
module FlairExperiment {
  import opened Common

  // ---------------------------------------------------------------------
  // Clock: idle and episode time
  // ---------------------------------------------------------------------

  datatype Clock = Clock(timeIdle: int, timeEpisode: int)

  /// One `get_done_status` update of the two timers.
  function Tick(c: Clock, moving: bool): Clock
  {
    Clock(if moving then 0 else c.timeIdle + 1, c.timeEpisode + 1)
  }

  /// The timers after one `get_done_status` per entry of `moves`.
  function Run(c: Clock, moves: seq<bool>): Clock
  {
    if moves == [] then c else Tick(Run(c, moves[..|moves| - 1]), moves[|moves| - 1])
  }

  /// How many calls at the end of `moves` saw the hero standing still.
  function TrailingStill(moves: seq<bool>): (n: nat)
    ensures n <= |moves|
    ensures forall i :: |moves| - n <= i < |moves| ==> !moves[i]
    ensures n < |moves| ==> moves[|moves| - n - 1]
  {
    if moves == [] || moves[|moves| - 1] then 0 else TrailingStill(moves[..|moves| - 1]) + 1
  }

  /// From a reset, the episode timer counts the calls and the idle timer
  /// counts the calls since the hero last moved.
  lemma {:induction false} RunFromReset(moves: seq<bool>)
    ensures Run(Clock(0, 0), moves) == Clock(TrailingStill(moves), |moves|)
  {
    if moves != [] {
      RunFromReset(moves[..|moves| - 1]);
    }
  }

  /// `done_time_idle` on the call after `moves` holds exactly when the hero
  /// has stood still for more than `maxTimeIdle` consecutive calls.
  lemma IdleTimeout(moves: seq<bool>, maxTimeIdle: int)
    ensures (maxTimeIdle < Run(Clock(0, 0), moves).timeIdle) <==>
            (maxTimeIdle < 0 || (maxTimeIdle < |moves| &&
              forall i :: |moves| - maxTimeIdle - 1 <= i < |moves| ==> !moves[i]))
  {
    RunFromReset(moves);
    var n := TrailingStill(moves);
    if 0 <= maxTimeIdle < |moves| && maxTimeIdle >= n {
      var i := |moves| - n - 1;
      assert moves[i];
    }
  }

  // ---------------------------------------------------------------------
  // Image history and frame stack
  // ---------------------------------------------------------------------

  /// `prev_image_0`, `prev_image_1`, `prev_image_2` once they hold images.
  datatype History<F> = History(p0: F, p1: F, p2: F)

  /// The first image after a reset fills all three slots.
  function Prime<F>(h: Option<History<F>>, image: F): History<F>
  {
    if h.None? then History(image, image, image) else h.value
  }

  /// The slots after `image` has been stacked: a shift register.
  function Shift<F>(h: History<F>, image: F): History<F>
  {
    History(image, h.p0, h.p1)
  }

  /// How many images the stack holds for a given `frame_stack`.
  function Depth(frameStack: int): int
  {
    if frameStack <= 1 then 1 else if frameStack >= 4 then 4 else frameStack
  }

  /// The images concatenated into the observation, oldest first.
  function Stack<F>(frameStack: int, h: History<F>, image: F): seq<F>
  {
    var s1 := [image];
    var s2 := if frameStack >= 2 then [h.p0] + s1 else s1;
    var s3 := if frameStack >= 3 then [h.p1] + s2 else s2;
    if frameStack >= 4 then [h.p2] + s3 else s3
  }

  /// The stack is the newest `Depth(frameStack)` entries of the history
  /// followed by the image.
  lemma StackIsSuffix<F>(frameStack: int, h: History<F>, image: F)
    ensures var s := Stack(frameStack, h, image);
            |s| == Depth(frameStack) && s == [h.p2, h.p1, h.p0, image][4 - |s|..]
  {
  }

  /// The history after observing `frames` from a reset.
  function HistoryAfter<F>(frames: seq<F>): Option<History<F>>
  {
    if frames == [] then None
    else
      var image := frames[|frames| - 1];
      Some(Shift(Prime(HistoryAfter(frames[..|frames| - 1]), image), image))
  }

  /// `frames[n - k]`, or the first frame when there are fewer than `k`.
  function Back<F>(frames: seq<F>, k: nat): F
    requires frames != [] && k >= 1
  {
    if |frames| >= k then frames[|frames| - k] else frames[0]
  }

  /// The slots hold the three most recent frames, the first frame of the
  /// episode standing in for frames that were never seen.
  lemma {:induction false} HistoryHoldsRecentFrames<F>(frames: seq<F>)
    requires frames != []
    ensures HistoryAfter(frames) == Some(History(Back(frames, 1), Back(frames, 2), Back(frames, 3)))
  {
    var init := frames[..|frames| - 1];
    if init != [] {
      HistoryHoldsRecentFrames(init);
      assert init[0] == frames[0];
    }
  }

  /// The stack built on the arrival of the last of `frames` shows the last
  /// `Depth(frameStack)` frames in order, padded with the episode's first.
  lemma StackShowsRecentFrames<F>(frames: seq<F>, frameStack: int)
    requires frames != []
    ensures var image := frames[|frames| - 1];
            var s := Stack(frameStack, Prime(HistoryAfter(frames[..|frames| - 1]), image), image);
            forall j :: 0 <= j < |s| ==> s[j] == Back(frames, |s| - j)
  {
    var image := frames[|frames| - 1];
    var init := frames[..|frames| - 1];
    var h := Prime(HistoryAfter(init), image);
    if init != [] {
      HistoryHoldsRecentFrames(init);
      assert init[0] == frames[0];
    }
    assert h == History(Back(frames, 2), Back(frames, 3), Back(frames, 4));
    var all := [h.p2, h.p1, h.p0, image];
    assert forall m :: 0 <= m < 4 ==> all[m] == Back(frames, 4 - m);
    StackIsSuffix(frameStack, h, image);
  }

  // ---------------------------------------------------------------------
  // The experiment object
  // ---------------------------------------------------------------------

  class FrontRgbExperiment<F> {
    var timeIdle: int
    var timeEpisode: int
    var nCollision: int
    var doneTimeIdle: bool
    var doneFalling: bool
    var doneTimeEpisode: bool
    var collided: bool
    var lastVelocity: real
    var lastHeadingDeviation: real
    var prevImage0: Option<F>
    var prevImage1: Option<F>
    var prevImage2: Option<F>
    /// `self.obs["images"]`.
    var obsImages: seq<F>
    const maxTimeIdle: int
    const maxTimeEpisode: int
    const frameStack: int

    /// The three slots are filled together, on the first image.
    predicate Valid()
      reads this
    {
      (prevImage0.None? <==> prevImage1.None?) && (prevImage0.None? <==> prevImage2.None?)
    }

    function Slots(): Option<History<F>>
      reads this
      requires Valid()
    {
      if prevImage0.None? then None else Some(History(prevImage0.value, prevImage1.value, prevImage2.value))
    }

    /// The state `reset` leaves behind.
    predicate IsReset()
      reads this
    {
      timeIdle == 0 && timeEpisode == 0 && nCollision == 0 &&
      !doneTimeIdle && !doneFalling && !doneTimeEpisode && !collided &&
      lastVelocity == 0.0 && lastHeadingDeviation == 0.0 &&
      prevImage0.None? && prevImage1.None? && prevImage2.None?
    }

    constructor (maxTimeIdle: int, maxTimeEpisode: int, frameStack: int)
      ensures this.maxTimeIdle == maxTimeIdle && this.maxTimeEpisode == maxTimeEpisode
      ensures this.frameStack == frameStack
      ensures Valid() && IsReset() && obsImages == []
    {
      this.maxTimeIdle := maxTimeIdle;
      this.maxTimeEpisode := maxTimeEpisode;
      this.frameStack := frameStack;
      timeIdle, timeEpisode, nCollision := 0, 0, 0;
      doneTimeIdle, doneFalling, doneTimeEpisode, collided := false, false, false, false;
      lastVelocity, lastHeadingDeviation := 0.0, 0.0;
      prevImage0, prevImage1, prevImage2 := None, None, None;
      obsImages := [];
    }

    /// `reset`: zeroes the counters, clears every flag and the history.
    method Reset()
      modifies this
      ensures Valid() && IsReset()
      ensures obsImages == old(obsImages)
    {
      timeIdle := 0;
      timeEpisode := 0;
      doneTimeIdle := false;
      doneFalling := false;
      doneTimeEpisode := false;
      collided := false;
      lastVelocity := 0.0;
      prevImage0 := None;
      prevImage1 := None;
      prevImage2 := None;
      nCollision := 0;
      lastHeadingDeviation := 0.0;
    }

    /// `get_done_status`, given the hero's speed and height. The idle
    /// timeout looks at the idle time before this call's update; `collided`
    /// is sticky until the next reset.
    method GetDoneStatus(speed: real, heightZ: real) returns (done: bool)
      modifies this
      ensures doneTimeIdle == (maxTimeIdle < old(timeIdle))
      ensures Clock(timeIdle, timeEpisode) == Tick(Clock(old(timeIdle), old(timeEpisode)), speed > 1.0)
      ensures doneTimeEpisode == (maxTimeEpisode < timeEpisode)
      ensures doneFalling == (heightZ < -0.5)
      ensures collided == (old(collided) || nCollision > 3)
      ensures done == (doneTimeIdle || doneFalling || doneTimeEpisode || collided)
      ensures nCollision == old(nCollision) && lastVelocity == old(lastVelocity)
      ensures lastHeadingDeviation == old(lastHeadingDeviation) && obsImages == old(obsImages)
      ensures prevImage0 == old(prevImage0) && prevImage1 == old(prevImage1) && prevImage2 == old(prevImage2)
    {
      doneTimeIdle := maxTimeIdle < timeIdle;
      if speed > 1.0 {
        timeIdle := 0;
      } else {
        timeIdle := timeIdle + 1;
      }
      timeEpisode := timeEpisode + 1;
      doneTimeEpisode := maxTimeEpisode < timeEpisode;
      doneFalling := heightZ < -0.5;
      if nCollision > 3 {
        collided := true;
      }
      done := doneTimeIdle || doneFalling || doneTimeEpisode || collided;
    }

    /// `preprocess_sensor_data`: counts a collision iff the sensor dict has
    /// a `collision` key.
    method PreprocessSensorData(sensorData: map<string, Value>)
      modifies this`nCollision
      ensures nCollision == old(nCollision) + (if "collision" in sensorData then 1 else 0)
    {
      if "collision" in sensorData {
        nCollision := nCollision + 1;
      }
    }

    /// `get_observation`: counts the collision first, then reads `rgb`
    /// (KeyError when missing), stacks the history and shifts it.
    method GetObservation(sensorData: map<string, Value>, postProcess: Value -> F)
      returns (r: Result<seq<F>, Exception>)
      requires Valid()
      modifies this`nCollision, this`prevImage0, this`prevImage1, this`prevImage2, this`obsImages
      ensures Valid()
      ensures nCollision == old(nCollision) + (if "collision" in sensorData then 1 else 0)
      ensures "rgb" !in sensorData ==>
        r == Err(KeyError("rgb")) && Slots() == old(Slots()) && obsImages == old(obsImages)
      ensures "rgb" in sensorData ==>
        var image := postProcess(sensorData["rgb"]);
        var h := Prime(old(Slots()), image);
        r == Ok(Stack(frameStack, h, image)) && obsImages == r.value && Slots() == Some(Shift(h, image))
    {
      ghost var slots := Slots();
      PreprocessSensorData(sensorData);
      assert Slots() == slots;
      if "rgb" !in sensorData {
        return Err(KeyError("rgb"));
      }
      var image := postProcess(sensorData["rgb"]);
      if prevImage0.None? {
        prevImage0 := Some(image);
        prevImage1 := prevImage0;
        prevImage2 := prevImage1;
      }
      var h := History(prevImage0.value, prevImage1.value, prevImage2.value);
      assert h == Prime(slots, image);
      var imagesStack := [image];
      if frameStack >= 2 {
        imagesStack := [h.p0] + imagesStack;
      }
      if frameStack >= 3 {
        imagesStack := [h.p1] + imagesStack;
      }
      if frameStack >= 4 {
        imagesStack := [h.p2] + imagesStack;
      }
      prevImage2 := prevImage1;
      prevImage1 := prevImage0;
      prevImage0 := Some(image);
      assert imagesStack == Stack(frameStack, h, image);
      obsImages := imagesStack;
      r := Ok(imagesStack);
    }
  }
}
