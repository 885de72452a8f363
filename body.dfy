// The body: eyes that see blobs while open, ears that buffer the newest
// sounds while listening, hands that move and touch, a mouth with a growing
// set of sounds, the discoveries about what each part does, and the energy
// and fatigue that exploring costs.
module Body {
  import opened Common

  /** How many recent sounds the ears keep. */
  const MaxSounds := 20

  /** The area hands explore, as `moveRandomly(1080, 1920)` draws it. */
  const ScreenWidth := 1080
  const ScreenHeight := 1920

  const InitialSounds: seq<string> := ["ah", "uh", "mm", "ee", "oh"]

  // ------------------------------------------------------------ 32-bit ints

  const TwoTo31 := 0x8000_0000
  const TwoTo32 := 0x1_0000_0000

  predicate IsInt32(n: int) { -TwoTo31 <= n < TwoTo31 }

  /** Java `int` addition wraps around modulo 2^32. */
  function Wrap32(n: int): (r: int)
    ensures IsInt32(r)
    ensures IsInt32(n) ==> r == n
  {
    (n + TwoTo31) % TwoTo32 - TwoTo31
  }

  // ----------------------------------------------------------------- blobs

  datatype VisualBlob = VisualBlob(
    x: int, y: int, width: int, height: int, color: int, brightness: real,
    hasText: bool, rawText: Option<string>, isMoving: bool, shape: string)

  predicate BlobInt32(b: VisualBlob)
  {
    IsInt32(b.x) && IsInt32(b.y) && IsInt32(b.width) && IsInt32(b.height)
  }

  /** `VisualBlob.contains`, with the right and bottom edges computed in 32-bit arithmetic. */
  predicate BlobContains(b: VisualBlob, px: int, py: int)
  {
    px >= b.x && px < Wrap32(b.x + b.width) && py >= b.y && py < Wrap32(b.y + b.height)
  }

  /**
   * For a blob whose edges fit in an `int` the test is the half-open
   * rectangle: the left and top edges are inside, the right and bottom
   * edges are not, and a blob of no width or height holds no point.
   */
  lemma ContainsHalfOpen(b: VisualBlob, px: int, py: int)
    requires BlobInt32(b) && IsInt32(b.x + b.width) && IsInt32(b.y + b.height)
    ensures BlobContains(b, px, py) <==> b.x <= px < b.x + b.width && b.y <= py < b.y + b.height
    ensures b.width <= 0 || b.height <= 0 ==> !BlobContains(b, px, py)
    ensures b.width > 0 && b.height > 0 ==> BlobContains(b, b.x, b.y) && !BlobContains(b, b.x + b.width, b.y)
  {
  }

  /** Past the largest `int` the right edge wraps to a negative number, and then the blob holds nothing. */
  lemma WideBlobHoldsNothing(b: VisualBlob, px: int, py: int)
    requires BlobInt32(b) && b.x >= 0 && b.x + b.width >= TwoTo31
    ensures !BlobContains(b, px, py)
  {
    assert Wrap32(b.x + b.width) == b.x + b.width - TwoTo32;
  }

  // ------------------------------------------------------------------ eyes

  class Eyes {
    var areOpen: bool
    var currentView: seq<VisualBlob>

    constructor ()
      ensures !areOpen && currentView == []
    {
      areOpen := false;
      currentView := [];
    }

    method Open()
      modifies this
      ensures areOpen && currentView == old(currentView)
    {
      areOpen := true;
    }

    /** `close`: shut, and nothing is left in view. */
    method Close()
      modifies this
      ensures !areOpen && currentView == []
    {
      areOpen := false;
      currentView := [];
    }

    /** `see`: a copy of the view while open, nothing while closed. */
    method See() returns (r: seq<VisualBlob>)
      ensures r == if areOpen then currentView else []
    {
      if !areOpen {
        return [];
      }
      r := currentView;
    }

    method UpdateView(blobs: seq<VisualBlob>)
      modifies this
      ensures currentView == blobs && areOpen == old(areOpen)
    {
      currentView := blobs;
    }

    /** `focusAt`: the first blob in view containing the point (open or not), or none. */
    method FocusAt(px: int, py: int) returns (r: Option<VisualBlob>)
      ensures r.None? <==> forall j :: 0 <= j < |currentView| ==> !BlobContains(currentView[j], px, py)
      ensures r.Some? ==> exists j :: (0 <= j < |currentView| && r.value == currentView[j] && BlobContains(r.value, px, py)
                                      && forall i :: 0 <= i < j ==> !BlobContains(currentView[i], px, py))
    {
      var view := currentView;
      var i := 0;
      while i < |view|
        invariant 0 <= i <= |view|
        invariant forall j :: 0 <= j < i ==> !BlobContains(view[j], px, py)
      {
        if BlobContains(view[i], px, py) {
          return Some(view[i]);
        }
        i := i + 1;
      }
      r := None;
    }
  }

  // ------------------------------------------------------------------ ears

  datatype Sound = Sound(timestamp: int, volume: real, pitch: real, duration: int, kind: string, rawContent: Option<string>)

  class Ears {
    var areListening: bool
    var recentSounds: seq<Sound>

    predicate Valid()
      reads this
    {
      |recentSounds| <= MaxSounds
    }

    constructor ()
      ensures Valid() && !areListening && recentSounds == []
    {
      areListening := false;
      recentSounds := [];
    }

    method StartListening()
      modifies this
      ensures areListening && recentSounds == old(recentSounds)
    {
      areListening := true;
    }

    method StopListening()
      modifies this
      ensures !areListening && recentSounds == old(recentSounds)
    {
      areListening := false;
    }

    /** `hear`: while listening, the buffered sounds, which are then cleared; otherwise nothing, and the buffer stays. */
    method Hear() returns (r: seq<Sound>)
      requires Valid()
      modifies this
      ensures Valid() && areListening == old(areListening)
      ensures old(areListening) ==> r == old(recentSounds) && recentSounds == []
      ensures !old(areListening) ==> r == [] && recentSounds == old(recentSounds)
    {
      if !areListening {
        return [];
      }
      r := recentSounds;
      recentSounds := [];
    }

    /** `onSoundDetected`: kept only while listening, and only the newest 20. */
    method OnSoundDetected(s: Sound)
      requires Valid()
      modifies this
      ensures Valid() && areListening == old(areListening)
      ensures recentSounds == if areListening then Keep(old(recentSounds) + [s], MaxSounds) else old(recentSounds)
    {
      if areListening {
        var xs := recentSounds + [s];
        var all := xs;
        while |xs| > MaxSounds
          invariant |xs| <= |all| && xs == all[|all| - |xs|..]
          invariant |all| > MaxSounds ==> |xs| >= MaxSounds
          invariant |all| <= MaxSounds ==> xs == all
          decreases |xs|
        {
          xs := xs[1..];
        }
        recentSounds := xs;
      }
    }
  }

  // ----------------------------------------------------------------- hands

  datatype TouchResult = TouchResult(kind: string, x: int, y: int, endX: int, endY: int, causedChange: bool)

  class Hands {
    var currentX: int
    var currentY: int
    var isTouching: bool

    constructor ()
      ensures currentX == 0 && currentY == 0 && !isTouching
    {
      currentX, currentY, isTouching := 0, 0, false;
    }

    method MoveTo(x: int, y: int)
      modifies this
      ensures currentX == x && currentY == y && isTouching == old(isTouching)
    {
      currentX, currentY := x, y;
    }

    /** `touch`: presses where the hand is; what it causes is not known yet. */
    method Touch() returns (r: TouchResult)
      modifies this
      ensures isTouching && currentX == old(currentX) && currentY == old(currentY)
      ensures r == TouchResult("touch", currentX, currentY, 0, 0, false)
    {
      isTouching := true;
      r := TouchResult("touch", currentX, currentY, 0, 0, false);
    }

    method Release()
      modifies this
      ensures !isTouching && currentX == old(currentX) && currentY == old(currentY)
    {
      isTouching := false;
    }

    /** `dragTo`: from where the hand was to the end point, where the hand then is. */
    method DragTo(endX: int, endY: int) returns (r: TouchResult)
      modifies this
      ensures r == TouchResult("drag", old(currentX), old(currentY), endX, endY, false)
      ensures currentX == endX && currentY == endY && isTouching == old(isTouching)
    {
      r := TouchResult("drag", currentX, currentY, endX, endY, false);
      currentX, currentY := endX, endY;
    }
  }

  // ----------------------------------------------------------------- mouth

  class Mouth {
    var soundsCanMake: seq<string>

    predicate Valid()
      reads this
    {
      NoDuplicates(soundsCanMake) && |soundsCanMake| >= |InitialSounds|
    }

    constructor ()
      ensures Valid() && soundsCanMake == InitialSounds
    {
      soundsCanMake := InitialSounds;
    }

    /** `makeRandomSound`; `pick` is the random draw. */
    method MakeSound(pick: nat) returns (s: string)
      requires Valid()
      ensures s in soundsCanMake && s == soundsCanMake[pick % |soundsCanMake|]
    {
      s := soundsCanMake[pick % |soundsCanMake|];
    }

    /** `learnSound`: a sound not yet known is added at the end; a known one changes nothing. */
    method LearnSound(sound: string)
      requires Valid()
      modifies this
      ensures Valid()
      ensures soundsCanMake == if sound in old(soundsCanMake) then old(soundsCanMake) else old(soundsCanMake) + [sound]
    {
      if sound !in soundsCanMake {
        soundsCanMake := soundsCanMake + [sound];
      }
    }
  }

  // ------------------------------------------------------------ discoveries

  datatype BodyDiscovery = BodyDiscovery(bodyPart: string, action: string, effect: string, reliability: real, observations: int)

  predicate SameDiscovery(d: BodyDiscovery, part: string, action: string, effect: string)
  {
    d.bodyPart == part && d.action == action && d.effect == effect
  }

  function FindDiscovery(ds: seq<BodyDiscovery>, part: string, action: string, effect: string): (r: Option<nat>)
    ensures r.Some? ==> r.value < |ds| && SameDiscovery(ds[r.value], part, action, effect)
                        && forall j :: 0 <= j < r.value ==> !SameDiscovery(ds[j], part, action, effect)
    ensures r.None? ==> forall j :: 0 <= j < |ds| ==> !SameDiscovery(ds[j], part, action, effect)
  {
    if ds == [] then None
    else if SameDiscovery(ds[0], part, action, effect) then Some(0)
    else match FindDiscovery(ds[1..], part, action, effect)
      case None => None
      case Some(i) => Some(i + 1)
  }

  /** A repeated observation: one more, with reliability a tenth per observation up to 1. */
  function Observed(d: BodyDiscovery): BodyDiscovery
  {
    var n := d.observations + 1;
    d.(observations := n, reliability := Min(1.0, n as real * 0.1))
  }

  /** The discoveries after `recordDiscovery(part, action, effect)`. */
  function Discovered(ds: seq<BodyDiscovery>, part: string, action: string, effect: string): seq<BodyDiscovery>
  {
    match FindDiscovery(ds, part, action, effect)
    case Some(i) => ds[i := Observed(ds[i])]
    case None => ds + [BodyDiscovery(part, action, effect, 0.1, 1)]
  }

  /**
   * No two discoveries share a (part, action, effect) triple, and each has at
   * least one observation and a reliability of a tenth per observation up to 1.
   */
  predicate DiscoveriesInv(ds: seq<BodyDiscovery>)
  {
    && (forall i, j :: 0 <= i < j < |ds| ==> !SameDiscovery(ds[j], ds[i].bodyPart, ds[i].action, ds[i].effect))
    && (forall i :: 0 <= i < |ds| ==> ds[i].observations >= 1 && ds[i].reliability == Min(1.0, ds[i].observations as real * 0.1))
  }

  /**
   * Recording keeps the invariant; a known triple gains one observation in
   * place, and a new one is appended with one observation and reliability 0.1.
   */
  lemma {:induction false} DiscoveredMeaning(ds: seq<BodyDiscovery>, part: string, action: string, effect: string)
    requires DiscoveriesInv(ds)
    ensures var r := Discovered(ds, part, action, effect);
      && DiscoveriesInv(r)
      && (forall i :: 0 <= i < |ds| && SameDiscovery(ds[i], part, action, effect) ==>
            |r| == |ds| && r[i].observations == ds[i].observations + 1
            && forall j :: 0 <= j < |ds| && j != i ==> r[j] == ds[j])
      && ((forall i :: 0 <= i < |ds| ==> !SameDiscovery(ds[i], part, action, effect)) ==>
            r == ds + [BodyDiscovery(part, action, effect, 0.1, 1)])
  {
    var r := Discovered(ds, part, action, effect);
    match FindDiscovery(ds, part, action, effect)
    case Some(i) =>
      forall x, y | 0 <= x < y < |r|
        ensures !SameDiscovery(r[y], r[x].bodyPart, r[x].action, r[x].effect)
      {
        assert SameDiscovery(r[x], ds[x].bodyPart, ds[x].action, ds[x].effect);
        assert SameDiscovery(r[y], ds[y].bodyPart, ds[y].action, ds[y].effect);
      }
      forall i' | 0 <= i' < |ds| && SameDiscovery(ds[i'], part, action, effect)
        ensures i' == i
      {
      }
    case None =>
      forall x, y | 0 <= x < y < |r|
        ensures !SameDiscovery(r[y], r[x].bodyPart, r[x].action, r[x].effect)
      {
        if y == |ds| {
          assert r[y] == BodyDiscovery(part, action, effect, 0.1, 1);
        }
      }
  }

  /** A discovery reaches full reliability at its tenth observation. */
  lemma ReliableAfterTen(d: BodyDiscovery)
    requires d.observations >= 9
    ensures Observed(d).reliability == 1.0
  {
  }

  // ---------------------------------------------------------------- energy

  /** `useEnergy`: energy falls by the amount down to 0, fatigue rises by half of it up to 100. */
  function Used(energy: real, fatigue: real, amount: real): (r: (real, real))
    ensures r.0 >= 0.0 && r.1 <= 100.0
    ensures amount >= 0.0 && energy >= 0.0 ==> r.0 <= energy
    ensures amount >= 0.0 && fatigue <= 100.0 ==> r.1 >= fatigue
    ensures energy >= amount ==> r.0 == energy - amount
  {
    (Max(0.0, energy - amount), Min(100.0, fatigue + amount * 0.5))
  }

  datatype ExplorationResult = ExplorationResult(timestamp: int, bodyPart: string, action: string, observedEffect: Option<string>)

  datatype BodyStatus = BodyStatus(energy: real, fatigue: real, eyesOpen: bool, earsListening: bool, discoveries: nat)

  // ------------------------------------------------------------------ body

  class AIChildBody {
    const eyes: Eyes
    const ears: Ears
    const hands: Hands
    const mouth: Mouth
    var isAwake: bool
    var energy: real
    var fatigue: real
    var discoveries: seq<BodyDiscovery>

    predicate Valid()
      reads this, ears, mouth
    {
      ears.Valid() && mouth.Valid() && DiscoveriesInv(discoveries)
    }

    constructor ()
      ensures Valid() && fresh(eyes) && fresh(ears) && fresh(hands) && fresh(mouth)
      ensures energy == 100.0 && fatigue == 0.0 && discoveries == [] && !isAwake
      ensures !eyes.areOpen && !ears.areListening && mouth.soundsCanMake == InitialSounds
    {
      eyes := new Eyes();
      ears := new Ears();
      hands := new Hands();
      mouth := new Mouth();
      isAwake := false;
      energy := 100.0;
      fatigue := 0.0;
      discoveries := [];
    }

    /** `recordDiscovery`. */
    method RecordDiscovery(part: string, action: string, effect: string)
      requires Valid()
      modifies this
      ensures Valid()
      ensures discoveries == Discovered(old(discoveries), part, action, effect)
      ensures energy == old(energy) && fatigue == old(fatigue) && isAwake == old(isAwake)
    {
      DiscoveredMeaning(discoveries, part, action, effect);
      var ds := discoveries;
      var i := 0;
      while i < |ds|
        invariant 0 <= i <= |ds|
        invariant forall j :: 0 <= j < i ==> !SameDiscovery(ds[j], part, action, effect)
      {
        if ds[i].bodyPart == part && ds[i].action == action && ds[i].effect == effect {
          var d := ds[i].(observations := ds[i].observations + 1);
          d := d.(reliability := Min(1.0, d.observations as real * 0.1));
          discoveries := ds[i := d];
          return;
        }
        i := i + 1;
      }
      discoveries := ds + [BodyDiscovery(part, action, effect, 0.1, 1)];
    }

    method UseEnergy(amount: real)
      modifies this
      ensures (energy, fatigue) == Used(old(energy), old(fatigue), amount)
      ensures discoveries == old(discoveries) && isAwake == old(isAwake)
    {
      energy := Max(0.0, energy - amount);
      fatigue := Min(100.0, fatigue + amount * 0.5);
    }

    /** `rest`: fatigue falls by the duration, never below 0. */
    method Rest(duration: real)
      modifies this
      ensures fatigue == Max(0.0, old(fatigue) - duration) && fatigue >= 0.0
      ensures duration >= 0.0 && old(fatigue) >= 0.0 ==> fatigue <= old(fatigue)
      ensures energy == old(energy) && discoveries == old(discoveries) && isAwake == old(isAwake)
    {
      fatigue := Max(0.0, fatigue - duration);
    }

    /** `feed`: energy rises by the amount, never above 100. */
    method Feed(amount: real)
      modifies this
      ensures energy == Min(100.0, old(energy) + amount) && energy <= 100.0
      ensures amount >= 0.0 && old(energy) <= 100.0 ==> energy >= old(energy)
      ensures fatigue == old(fatigue) && discoveries == old(discoveries) && isAwake == old(isAwake)
    {
      energy := Min(100.0, energy + amount);
    }

    /**
     * `explore`: the part is `choice % 4`; `coin` decides between touching and
     * moving, `rx`/`ry` are the random position and `pick` the random sound.
     */
    method Explore(now: int, choice: nat, coin: bool, rx: nat, ry: nat, pick: nat) returns (r: ExplorationResult)
      requires Valid()
      modifies this, eyes, ears, hands
      ensures Valid()
      ensures (energy, fatigue) == Used(old(energy), old(fatigue), 1.0)
      ensures discoveries == old(discoveries) && mouth.soundsCanMake == old(mouth.soundsCanMake)
      ensures r.timestamp == now && r.observedEffect.None?
      ensures r.bodyPart == ["eyes", "hands", "mouth", "ears"][choice % 4]
      ensures choice % 4 == 0 ==> eyes.areOpen && r.action == (if old(eyes.areOpen) then "look around" else "open")
      ensures choice % 4 != 0 ==> eyes.areOpen == old(eyes.areOpen)
      ensures choice % 4 == 1 ==> hands.currentX == rx % ScreenWidth && hands.currentY == ry % ScreenHeight
      ensures choice % 4 == 1 ==> hands.isTouching == (old(hands.isTouching) || coin)
      ensures choice % 4 == 1 ==>
                r.action == (if coin then "touch at " else "move to ") + IntToString(rx % ScreenWidth) + "," + IntToString(ry % ScreenHeight)
      ensures choice % 4 != 1 ==> (hands.currentX, hands.currentY, hands.isTouching) == old((hands.currentX, hands.currentY, hands.isTouching))
      ensures choice % 4 == 2 ==> r.action == "make sound: " + mouth.soundsCanMake[pick % |mouth.soundsCanMake|]
      ensures choice % 4 == 3 ==> ears.areListening && r.action == (if old(ears.areListening) then "listen" else "start listening")
      ensures choice % 4 != 3 ==> ears.areListening == old(ears.areListening)
      ensures ears.recentSounds == old(ears.recentSounds) && eyes.currentView == old(eyes.currentView)
      ensures isAwake == old(isAwake)
    {
      var part := "";
      var action := "";
      var c := choice % 4;
      if c == 0 {
        part := "eyes";
        action := if eyes.areOpen then "look around" else "open";
        if !eyes.areOpen {
          eyes.Open();
        }
      } else if c == 1 {
        part := "hands";
        hands.MoveTo(rx % ScreenWidth, ry % ScreenHeight);
        var position := IntToString(hands.currentX) + "," + IntToString(hands.currentY);
        if coin {
          var _ := hands.Touch();
          action := "touch at " + position;
        } else {
          action := "move to " + position;
        }
      } else if c == 2 {
        part := "mouth";
        var s := mouth.MakeSound(pick);
        action := "make sound: " + s;
      } else {
        part := "ears";
        if !ears.areListening {
          ears.StartListening();
          action := "start listening";
        } else {
          action := "listen";
        }
      }
      UseEnergy(1.0);
      r := ExplorationResult(now, part, action, None);
    }

    /** `getStatus`. */
    method GetStatus() returns (s: BodyStatus)
      ensures s == BodyStatus(energy, fatigue, eyes.areOpen, ears.areListening, |discoveries|)
    {
      s := BodyStatus(energy, fatigue, eyes.areOpen, ears.areListening, |discoveries|);
    }
  }
}
