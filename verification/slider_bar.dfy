/** GUI::SliderBar: a normalised slider position. */
module SliderBar {
  import opened UIMath

  /** The stored slider value; GetValue clamps on the way out as well as SetValue on the way in. */
  datatype Slider = Slider(sliderValue: real)

  /** Both constructors start the slider at 0. */
  function NewSliderBar(): (r: Slider)
    ensures GetValue(r) == 0.0
  {
    Slider(0.0)
  }

  /** The normalised slider position, always in [0, 1]. */
  function GetValue(bar: Slider): (r: real)
    ensures 0.0 <= r <= 1.0
    ensures 0.0 <= bar.sliderValue <= 1.0 ==> r == bar.sliderValue
  {
    Clamp(bar.sliderValue, 0.0, 1.0)
  }

  /** Stores the value limited to [0, 1]. */
  function SetValue(bar: Slider, v: real): (r: Slider)
    ensures 0.0 <= r.sliderValue <= 1.0
    ensures v < 0.0 ==> r.sliderValue == 0.0
    ensures 1.0 < v ==> r.sliderValue == 1.0
  {
    Slider(Clamp(v, 0.0, 1.0))
  }

  /** Set then get gives the value back exactly when it lies in [0, 1]. */
  lemma SetGetRoundTrip(bar: Slider, v: real)
    ensures GetValue(SetValue(bar, v)) == v <==> 0.0 <= v <= 1.0
  {
  }

  /** Setting is idempotent and forgets the earlier value; after a set, the read clamp is a no-op. */
  lemma SetValueIdempotent(bar: Slider, v: real)
    ensures SetValue(SetValue(bar, v), v) == SetValue(bar, v)
    ensures SetValue(bar, v) == SetValue(NewSliderBar(), v)
    ensures GetValue(SetValue(bar, v)) == SetValue(bar, v).sliderValue
  {
  }

  /** Setting what was read back changes nothing. */
  lemma SetWhatWasRead(bar: Slider, v: real)
    ensures var stored := SetValue(bar, v); SetValue(stored, GetValue(stored)) == stored
  {
  }
}
