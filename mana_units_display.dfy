/** ManaUnitsDisplay: the player's mana units shown as two digit images,
    each picking one of ten digit sprites. */
module ManaDisplay {
  import opened Wrappers

  datatype Sprite = Sprite(name: string)

  /** What an Image shows: whether its game object is active, and its
      sprite (null after a clear). */
  datatype ImageView = ImageView(active: bool, sprite: Option<Sprite>)

  /** The display: the tens and ones images and the cached last value. */
  datatype Display = Display(tens: ImageView, ones: ImageView, lastDisplayedValue: int)

  /** The cache value meaning "nothing shown yet". */
  const NothingDisplayed := -1

  /** Mathf.Clamp on int: below `lo` gives `lo`, else above `hi` gives `hi`. */
  function Clamp(value: int, lo: int, hi: int): (r: int)
    ensures lo <= hi ==> lo <= r <= hi
    ensures lo <= value <= hi ==> r == value
  {
    if value < lo then lo else if value > hi then hi else value
  }

  predicate InDigitRange(v: int)
  {
    0 <= v <= 99
  }

  /** A value of 0..99 splits into a tens and a ones digit that recompose it
      (C# / and % truncate, which for these non-negative values agrees with
      Dafny's). */
  lemma DigitsRecompose(v: int)
    requires InDigitRange(v)
    ensures 0 <= v / 10 <= 9 && 0 <= v % 10 <= 9
    ensures (v / 10) * 10 + v % 10 == v
  {
  }

  /** The drawing step shared by UpdateDisplay and SetDisplayValue for a
      value in 0..99: hide both images for a hidden zero (their sprites are
      left as they were), hide the tens image for a single digit without
      leading zero, and otherwise show both digits. */
  function Render(d: Display, v: int, sprites: seq<Sprite>, showLeadingZero: bool, hideOnZero: bool): (r: Display)
    requires |sprites| == 10 && InDigitRange(v)
    ensures r.lastDisplayedValue == d.lastDisplayedValue
  {
    if hideOnZero && v == 0 then
      d.(tens := d.tens.(active := false), ones := d.ones.(active := false))
    else
      var tensDigit := v / 10;
      var onesDigit := v % 10;
      if !showLeadingZero && tensDigit == 0 then
        d.(tens := ImageView(false, None), ones := ImageView(true, Some(sprites[onesDigit])))
      else
        d.(tens := ImageView(true, Some(sprites[tensDigit])), ones := ImageView(true, Some(sprites[onesDigit])))
  }

  /** The position of `s` among the digit sprites. */
  function IndexOf(sprites: seq<Sprite>, s: Sprite): (r: Option<nat>)
    ensures r.Some? ==> r.value < |sprites| && sprites[r.value] == s
    ensures r.None? ==> s !in sprites
  {
    if sprites == [] then None
    else if sprites[0] == s then Some(0)
    else match IndexOf(sprites[1..], s)
      case None => None
      case Some(k) => Some(k + 1)
  }

  predicate DistinctSprites(sprites: seq<Sprite>)
  {
    forall i, j :: 0 <= i < j < |sprites| ==> sprites[i] != sprites[j]
  }

  /** The number a reader sees: nothing when the ones image is off, the
      ones digit alone when the tens image is off, and both digits
      otherwise. */
  function Reading(d: Display, sprites: seq<Sprite>): Option<int>
  {
    if !d.ones.active || d.ones.sprite.None? then None
    else match IndexOf(sprites, d.ones.sprite.value)
      case None => None
      case Some(o) =>
        if d.tens.active && d.tens.sprite.Some? then
          match IndexOf(sprites, d.tens.sprite.value)
            case None => None
            case Some(t) => Some(t * 10 + o)
        else Some(o)
  }

  lemma IndexOfDistinct(sprites: seq<Sprite>, k: nat)
    requires DistinctSprites(sprites) && k < |sprites|
    ensures IndexOf(sprites, sprites[k]) == Some(k)
  {
    var r := IndexOf(sprites, sprites[k]);
    assert r.Some?;
  }

  /** With distinct digit sprites the display reads back the value it was
      given, or nothing for a hidden zero; with leading zeros on, a single
      digit reads as 0 then the digit, which is the same number. */
  lemma RenderReadsBack(d: Display, v: int, sprites: seq<Sprite>, showLeadingZero: bool, hideOnZero: bool)
    requires |sprites| == 10 && InDigitRange(v) && DistinctSprites(sprites)
    ensures Reading(Render(d, v, sprites, showLeadingZero, hideOnZero), sprites) ==
            if hideOnZero && v == 0 then None else Some(v)
  {
    DigitsRecompose(v);
    IndexOfDistinct(sprites, v % 10);
    IndexOfDistinct(sprites, v / 10);
  }

  /** The three cases of the drawing step. */
  lemma RenderCases(d: Display, v: int, sprites: seq<Sprite>, showLeadingZero: bool, hideOnZero: bool)
    requires |sprites| == 10 && InDigitRange(v)
    ensures var r := Render(d, v, sprites, showLeadingZero, hideOnZero);
            (hideOnZero && v == 0 ==> !r.tens.active && !r.ones.active) &&
            (!(hideOnZero && v == 0) && !showLeadingZero && v < 10 ==>
               !r.tens.active && r.ones == ImageView(true, Some(sprites[v]))) &&
            (!(hideOnZero && v == 0) && (showLeadingZero || v >= 10) ==>
               r.tens == ImageView(true, Some(sprites[v / 10])) && r.ones == ImageView(true, Some(sprites[v % 10])))
  {
  }

  /** SetDisplayValue: clamp to 0..99, cache the clamped value, draw it. */
  function SetDisplayValueSpec(d: Display, value: int, sprites: seq<Sprite>, showLeadingZero: bool, hideOnZero: bool): (r: Display)
    requires |sprites| == 10
    ensures r.lastDisplayedValue == Clamp(value, 0, 99) && InDigitRange(r.lastDisplayedValue)
  {
    var v := Clamp(value, 0, 99);
    Render(d.(lastDisplayedValue := v), v, sprites, showLeadingZero, hideOnZero)
  }

  /** Whatever value is set, the display reads back its clamped value, or
      nothing for a hidden zero. */
  lemma SetDisplayValueReadsBack(d: Display, value: int, sprites: seq<Sprite>, showLeadingZero: bool, hideOnZero: bool)
    requires |sprites| == 10 && DistinctSprites(sprites)
    ensures var v := Clamp(value, 0, 99);
            Reading(SetDisplayValueSpec(d, value, sprites, showLeadingZero, hideOnZero), sprites) ==
            if hideOnZero && v == 0 then None else Some(v)
  {
    var v := Clamp(value, 0, 99);
    RenderReadsBack(d.(lastDisplayedValue := v), v, sprites, showLeadingZero, hideOnZero);
  }

  /** UpdateDisplay: nothing without a PlayerManager; otherwise draw the
      current value.  It does not clamp and does not touch the cache. */
  function UpdateDisplaySpec(d: Display, hasPlayerManager: bool, current: int, sprites: seq<Sprite>,
                             showLeadingZero: bool, hideOnZero: bool): (r: Display)
    requires |sprites| == 10 && (hasPlayerManager ==> InDigitRange(current))
    ensures r.lastDisplayedValue == d.lastDisplayedValue
    ensures !hasPlayerManager ==> r == d
  {
    if !hasPlayerManager then d else Render(d, current, sprites, showLeadingZero, hideOnZero)
  }

  /** Update: redraw, then cache, only when the current value differs from
      the cached one. */
  function UpdateSpec(d: Display, hasPlayerManager: bool, current: int, sprites: seq<Sprite>,
                      showLeadingZero: bool, hideOnZero: bool): Display
    requires |sprites| == 10 && (hasPlayerManager && current != d.lastDisplayedValue ==> InDigitRange(current))
  {
    if hasPlayerManager && current != d.lastDisplayedValue then
      UpdateDisplaySpec(d, hasPlayerManager, current, sprites, showLeadingZero, hideOnZero).(lastDisplayedValue := current)
    else d
  }

  /** Update draws nothing when the value is unchanged; a changed value is
      drawn and cached, so the following Update with the same value does
      nothing. */
  lemma UpdateOnlyOnChange(d: Display, hasPlayerManager: bool, current: int, sprites: seq<Sprite>,
                           showLeadingZero: bool, hideOnZero: bool)
    requires |sprites| == 10 && (hasPlayerManager && current != d.lastDisplayedValue ==> InDigitRange(current))
    ensures current == d.lastDisplayedValue || !hasPlayerManager ==>
              UpdateSpec(d, hasPlayerManager, current, sprites, showLeadingZero, hideOnZero) == d
    ensures hasPlayerManager && current != d.lastDisplayedValue ==>
              var r := UpdateSpec(d, hasPlayerManager, current, sprites, showLeadingZero, hideOnZero);
              r.lastDisplayedValue == current &&
              r == Render(d, current, sprites, showLeadingZero, hideOnZero).(lastDisplayedValue := current) &&
              UpdateSpec(r, hasPlayerManager, current, sprites, showLeadingZero, hideOnZero) == r
  {
  }

  /** A value set by hand and then reported by the PlayerManager is not
      drawn a second time. */
  lemma SetThenUpdateSameValue(d: Display, value: int, sprites: seq<Sprite>, showLeadingZero: bool, hideOnZero: bool)
    requires |sprites| == 10 && InDigitRange(value)
    ensures var s := SetDisplayValueSpec(d, value, sprites, showLeadingZero, hideOnZero);
            UpdateSpec(s, true, value, sprites, showLeadingZero, hideOnZero) == s
  {
  }

  class ManaUnitsDisplay {
    const numberSprites: seq<Sprite>
    const showLeadingZero: bool
    const hideOnZero: bool
    /** Whether a PlayerManager was found in the scene. */
    const hasPlayerManager: bool
    var tensDigitImage: ImageView
    var onesDigitImage: ImageView
    var lastDisplayedValue: int

    /** The sprite array holds exactly the ten digits (the check Awake
        makes before it leaves the component enabled). */
    predicate Valid()
      reads this
    {
      |numberSprites| == 10
    }

    ghost function State(): Display
      reads this
    {
      Display(tensDigitImage, onesDigitImage, lastDisplayedValue)
    }

    constructor (numberSprites: seq<Sprite>, showLeadingZero: bool, hideOnZero: bool, hasPlayerManager: bool,
                 tens: ImageView, ones: ImageView)
      requires |numberSprites| == 10
      ensures Valid()
      ensures this.numberSprites == numberSprites && this.showLeadingZero == showLeadingZero &&
              this.hideOnZero == hideOnZero && this.hasPlayerManager == hasPlayerManager
      ensures State() == Display(tens, ones, NothingDisplayed)
    {
      this.numberSprites := numberSprites;
      this.showLeadingZero := showLeadingZero;
      this.hideOnZero := hideOnZero;
      this.hasPlayerManager := hasPlayerManager;
      tensDigitImage := tens;
      onesDigitImage := ones;
      lastDisplayedValue := NothingDisplayed;
    }

    /** The drawing step, on the two images. */
    method Draw(v: int)
      requires Valid() && InDigitRange(v)
      modifies this`tensDigitImage, this`onesDigitImage
      ensures State() == Render(old(State()), v, numberSprites, showLeadingZero, hideOnZero)
    {
      if hideOnZero && v == 0 {
        tensDigitImage := tensDigitImage.(active := false);
        onesDigitImage := onesDigitImage.(active := false);
        return;
      }
      tensDigitImage := tensDigitImage.(active := true);
      onesDigitImage := onesDigitImage.(active := true);
      var tensDigit := v / 10;
      var onesDigit := v % 10;
      tensDigitImage := tensDigitImage.(sprite := None);
      onesDigitImage := onesDigitImage.(sprite := None);
      if !showLeadingZero && tensDigit == 0 {
        tensDigitImage := tensDigitImage.(active := false);
        onesDigitImage := onesDigitImage.(sprite := Some(numberSprites[onesDigit]));
      } else {
        tensDigitImage := tensDigitImage.(active := true);
        tensDigitImage := tensDigitImage.(sprite := Some(numberSprites[tensDigit]));
        onesDigitImage := onesDigitImage.(sprite := Some(numberSprites[onesDigit]));
      }
    }

    /** `currentManaUnits` is what the PlayerManager reports; out of 0..99
        it would index past the sprite array. */
    method UpdateDisplay(currentManaUnits: int)
      requires Valid() && (hasPlayerManager ==> InDigitRange(currentManaUnits))
      modifies this`tensDigitImage, this`onesDigitImage
      ensures State() == UpdateDisplaySpec(old(State()), hasPlayerManager, currentManaUnits, numberSprites,
                                           showLeadingZero, hideOnZero)
    {
      if !hasPlayerManager {
        return;
      }
      Draw(currentManaUnits);
    }

    method Start(currentManaUnits: int)
      requires Valid() && (hasPlayerManager ==> InDigitRange(currentManaUnits))
      modifies this`tensDigitImage, this`onesDigitImage
      ensures State() == UpdateDisplaySpec(old(State()), hasPlayerManager, currentManaUnits, numberSprites,
                                           showLeadingZero, hideOnZero)
    {
      UpdateDisplay(currentManaUnits);
    }

    method Update(currentManaUnits: int)
      requires Valid() && (hasPlayerManager && currentManaUnits != lastDisplayedValue ==> InDigitRange(currentManaUnits))
      modifies this`tensDigitImage, this`onesDigitImage, this`lastDisplayedValue
      ensures State() == UpdateSpec(old(State()), hasPlayerManager, currentManaUnits, numberSprites,
                                    showLeadingZero, hideOnZero)
    {
      if hasPlayerManager {
        var currentValue := currentManaUnits;
        if currentValue != lastDisplayedValue {
          UpdateDisplay(currentManaUnits);
          lastDisplayedValue := currentValue;
        }
      }
    }

    method SetDisplayValue(value: int)
      requires Valid()
      modifies this`tensDigitImage, this`onesDigitImage, this`lastDisplayedValue
      ensures State() == SetDisplayValueSpec(old(State()), value, numberSprites, showLeadingZero, hideOnZero)
    {
      var v := Clamp(value, 0, 99);
      lastDisplayedValue := v;
      Draw(v);
    }
  }
}
