/** The label classifiers of the audio analyser: four first-match threshold
    cascades that turn numeric audio descriptors into closed label sets, and
    the feature dictionary that the analyser hands to the prompt builder. */
module AudioAnalyzer {
  import opened Wrappers

  datatype TempoClass = Slow | Moderate | Upbeat | Fast {
    /** The string the analyser stores under "tempo_class". */
    function Name(): string {
      match this
      case Slow => "slow"
      case Moderate => "moderate"
      case Upbeat => "upbeat"
      case Fast => "fast"
    }

    /** Position of the bucket on the tempo axis, slowest first. */
    function Rank(): nat {
      match this
      case Slow => 0
      case Moderate => 1
      case Upbeat => 2
      case Fast => 3
    }
  }

  datatype EnergyLevel = Minimal | Low | Medium | High | Intense {
    function Name(): string {
      match this
      case Minimal => "minimal"
      case Low => "low"
      case Medium => "medium"
      case High => "high"
      case Intense => "intense"
    }

    function Rank(): nat {
      match this
      case Minimal => 0
      case Low => 1
      case Medium => 2
      case High => 3
      case Intense => 4
    }
  }

  datatype Mood =
    | Melancholic | Emotional | Aggressive | Tense | Euphoric
    | Bright | Driving | Epic | Atmospheric
  {
    function Name(): string {
      match this
      case Melancholic => "melancholic"
      case Emotional => "emotional"
      case Aggressive => "aggressive"
      case Tense => "tense"
      case Euphoric => "euphoric"
      case Bright => "bright"
      case Driving => "driving"
      case Epic => "epic"
      case Atmospheric => "atmospheric"
    }

    /** Position of this mood's rule in the cascade; atmospheric is the fall-through. */
    function Rank(): nat {
      match this
      case Melancholic => 0
      case Emotional => 1
      case Aggressive => 2
      case Tense => 3
      case Euphoric => 4
      case Bright => 5
      case Driving => 6
      case Epic => 7
      case Atmospheric => 8
    }
  }

  datatype Texture = Smooth | Textured | Rhythmic | Layered {
    function Name(): string {
      match this
      case Smooth => "smooth"
      case Textured => "textured"
      case Rhythmic => "rhythmic"
      case Layered => "layered"
    }

    function Rank(): nat {
      match this
      case Smooth => 0
      case Textured => 1
      case Rhythmic => 2
      case Layered => 3
    }
  }

  /** The descriptors that the signal-processing stage measures for one clip. */
  datatype Descriptors = Descriptors(
    tempo: real,
    rms: real,
    harmonicRatio: real,
    centroid: real,
    contrast: real,
    zcr: real,
    bandwidth: real,
    harmonicEnergy: real,
    percussiveEnergy: real)

  /** The four labels of one clip. */
  datatype FeatureClass = FeatureClass(tempoClass: TempoClass, energy: EnergyLevel, mood: Mood, texture: Texture)

  /** The part of the analyser's result dictionary that the prompt builder reads. */
  datatype Features = Features(
    tempo: real,
    tempoClass: string,
    energy: string,
    mood: string,
    texture: string,
    dominantPitch: int)

  // ---------------------------------------------------------------------------
  // Tempo and energy: single-threshold cascades, each bucket closed below and
  // open above.

  function ClassifyTempo(tempo: real): (c: TempoClass)
    ensures c == Slow <==> tempo < 80.0
    ensures c == Moderate <==> 80.0 <= tempo < 120.0
    ensures c == Upbeat <==> 120.0 <= tempo < 150.0
    ensures c == Fast <==> 150.0 <= tempo
  {
    if tempo < 80.0 then Slow
    else if tempo < 120.0 then Moderate
    else if tempo < 150.0 then Upbeat
    else Fast
  }

  lemma ClassifyTempoMonotone(t1: real, t2: real)
    requires t1 <= t2
    ensures ClassifyTempo(t1).Rank() <= ClassifyTempo(t2).Rank()
  {
  }

  lemma TempoBoundaries()
    ensures ClassifyTempo(79.99) == Slow
    ensures ClassifyTempo(80.0) == Moderate
    ensures ClassifyTempo(119.99) == Moderate
    ensures ClassifyTempo(120.0) == Upbeat
    ensures ClassifyTempo(149.99) == Upbeat
    ensures ClassifyTempo(150.0) == Fast
  {
  }

  function ClassifyEnergy(rms: real): (e: EnergyLevel)
    ensures e == Minimal <==> rms < 0.02
    ensures e == Low <==> 0.02 <= rms < 0.05
    ensures e == Medium <==> 0.05 <= rms < 0.15
    ensures e == High <==> 0.15 <= rms < 0.3
    ensures e == Intense <==> 0.3 <= rms
  {
    if rms < 0.02 then Minimal
    else if rms < 0.05 then Low
    else if rms < 0.15 then Medium
    else if rms < 0.3 then High
    else Intense
  }

  lemma ClassifyEnergyMonotone(r1: real, r2: real)
    requires r1 <= r2
    ensures ClassifyEnergy(r1).Rank() <= ClassifyEnergy(r2).Rank()
  {
  }

  lemma EnergyBoundaries()
    ensures ClassifyEnergy(0.0199) == Minimal
    ensures ClassifyEnergy(0.02) == Low
    ensures ClassifyEnergy(0.05) == Medium
    ensures ClassifyEnergy(0.15) == High
    ensures ClassifyEnergy(0.2999) == High
    ensures ClassifyEnergy(0.3) == Intense
  {
  }

  // ---------------------------------------------------------------------------
  // Mood: nine rules tried in order, the first that holds wins.

  /** The condition under which the cascade's rule for mood m fires, read as
      an entry of an ordered rule table (atmospheric always fires). */
  predicate MoodRule(m: Mood, d: Descriptors) {
    match m
    case Melancholic => d.harmonicRatio > 0.7 && d.centroid < 2000.0 && d.rms < 0.1
    case Emotional => d.harmonicRatio > 0.6 && d.centroid < 2500.0
    case Aggressive => d.contrast > 30.0 && d.zcr > 0.15
    case Tense => d.contrast > 20.0 && d.zcr > 0.1
    case Euphoric => d.centroid > 4000.0 && d.rms > 0.1
    case Bright => d.centroid > 3000.0
    case Driving => d.percussiveEnergy > d.harmonicEnergy && d.tempo > 120.0
    case Epic => d.bandwidth > 2000.0 && d.contrast > 15.0
    case Atmospheric => true
  }

  /** m is the first mood in rule order whose rule holds for d. */
  predicate FirstMatchingMood(m: Mood, d: Descriptors) {
    MoodRule(m, d) && forall earlier: Mood :: earlier.Rank() < m.Rank() ==> !MoodRule(earlier, d)
  }

  function ClassifyMood(d: Descriptors): (m: Mood)
    ensures FirstMatchingMood(m, d)
  {
    if d.harmonicRatio > 0.7 && d.centroid < 2000.0 && d.rms < 0.1 then Melancholic
    else if d.harmonicRatio > 0.6 && d.centroid < 2500.0 then Emotional
    else if d.contrast > 30.0 && d.zcr > 0.15 then Aggressive
    else if d.contrast > 20.0 && d.zcr > 0.1 then Tense
    else if d.centroid > 4000.0 && d.rms > 0.1 then Euphoric
    else if d.centroid > 3000.0 then Bright
    else if d.percussiveEnergy > d.harmonicEnergy && d.tempo > 120.0 then Driving
    else if d.bandwidth > 2000.0 && d.contrast > 15.0 then Epic
    else Atmospheric
  }

  /** The first-match characterisation pins the mood down: no other mood satisfies it. */
  lemma FirstMatchingMoodUnique(m1: Mood, m2: Mood, d: Descriptors)
    requires FirstMatchingMood(m1, d) && FirstMatchingMood(m2, d)
    ensures m1 == m2
  {
  }

  lemma ClassifyMoodAtmosphericExactly(d: Descriptors)
    ensures ClassifyMood(d) == Atmospheric <==> forall m: Mood :: m != Atmospheric ==> !MoodRule(m, d)
  {
  }

  /** Rule 1 beats rule 3: a melancholic clip stays melancholic even when the aggressive rule holds too. */
  lemma MelancholicPrecedesAggressive(d: Descriptors)
    requires d.harmonicRatio > 0.7 && d.centroid < 2000.0 && d.rms < 0.1
    requires d.contrast > 30.0 && d.zcr > 0.15
    ensures ClassifyMood(d) == Melancholic
  {
  }

  /** Rule 2 catches the harmonic, dark clips that rule 1 rejects for being loud. */
  lemma LoudDarkHarmonicIsEmotional(d: Descriptors)
    requires d.harmonicRatio > 0.7 && d.centroid < 2000.0 && d.rms >= 0.1
    ensures ClassifyMood(d) == Emotional
  {
  }

  // ---------------------------------------------------------------------------
  // Texture: four rules tried in order.

  predicate TextureRule(t: Texture, d: Descriptors) {
    match t
    case Smooth => d.bandwidth < 1500.0 && d.harmonicRatio > 0.6
    case Textured => d.zcr > 0.12
    case Rhythmic => d.percussiveEnergy > d.harmonicEnergy * 1.5
    case Layered => true
  }

  predicate FirstMatchingTexture(t: Texture, d: Descriptors) {
    TextureRule(t, d) && forall earlier: Texture :: earlier.Rank() < t.Rank() ==> !TextureRule(earlier, d)
  }

  function ClassifyTexture(d: Descriptors): (t: Texture)
    ensures FirstMatchingTexture(t, d)
  {
    if d.bandwidth < 1500.0 && d.harmonicRatio > 0.6 then Smooth
    else if d.zcr > 0.12 then Textured
    else if d.percussiveEnergy > d.harmonicEnergy * 1.5 then Rhythmic
    else Layered
  }

  lemma FirstMatchingTextureUnique(t1: Texture, t2: Texture, d: Descriptors)
    requires FirstMatchingTexture(t1, d) && FirstMatchingTexture(t2, d)
    ensures t1 == t2
  {
  }

  /** A narrow-band harmonic clip is smooth whatever its zero-crossing rate. */
  lemma SmoothIgnoresZcr(d: Descriptors, zcr: real)
    requires d.bandwidth < 1500.0 && d.harmonicRatio > 0.6
    ensures ClassifyTexture(d) == Smooth && ClassifyTexture(d.(zcr := zcr)) == Smooth
  {
  }

  lemma ClassifyTextureRhythmicExactly(d: Descriptors)
    ensures ClassifyTexture(d) == Rhythmic <==>
              d.percussiveEnergy > d.harmonicEnergy * 1.5 && !TextureRule(Smooth, d) && !TextureRule(Textured, d)
  {
  }

  // ---------------------------------------------------------------------------
  // The whole classification and the dictionary it produces.

  function Classify(d: Descriptors): (fc: FeatureClass)
    ensures fc.tempoClass == ClassifyTempo(d.tempo) && fc.energy == ClassifyEnergy(d.rms)
    ensures FirstMatchingMood(fc.mood, d) && FirstMatchingTexture(fc.texture, d)
  {
    FeatureClass(ClassifyTempo(d.tempo), ClassifyEnergy(d.rms), ClassifyMood(d), ClassifyTexture(d))
  }

  // Reading the labels back from their strings.

  function TempoClassNamed(s: string): (r: Option<TempoClass>)
    ensures r.Some? ==> r.value.Name() == s
  {
    if s == "slow" then Some(Slow)
    else if s == "moderate" then Some(Moderate)
    else if s == "upbeat" then Some(Upbeat)
    else if s == "fast" then Some(Fast)
    else None
  }

  function EnergyLevelNamed(s: string): (r: Option<EnergyLevel>)
    ensures r.Some? ==> r.value.Name() == s
  {
    if s == "minimal" then Some(Minimal)
    else if s == "low" then Some(Low)
    else if s == "medium" then Some(Medium)
    else if s == "high" then Some(High)
    else if s == "intense" then Some(Intense)
    else None
  }

  function MoodNamed(s: string): (r: Option<Mood>)
    ensures r.Some? ==> r.value.Name() == s
  {
    if s == "melancholic" then Some(Melancholic)
    else if s == "emotional" then Some(Emotional)
    else if s == "aggressive" then Some(Aggressive)
    else if s == "tense" then Some(Tense)
    else if s == "euphoric" then Some(Euphoric)
    else if s == "bright" then Some(Bright)
    else if s == "driving" then Some(Driving)
    else if s == "epic" then Some(Epic)
    else if s == "atmospheric" then Some(Atmospheric)
    else None
  }

  function TextureNamed(s: string): (r: Option<Texture>)
    ensures r.Some? ==> r.value.Name() == s
  {
    if s == "smooth" then Some(Smooth)
    else if s == "textured" then Some(Textured)
    else if s == "rhythmic" then Some(Rhythmic)
    else if s == "layered" then Some(Layered)
    else None
  }

  /** Each label's string reads back as that label, so the names are distinct. */
  lemma NamesReadBack(c: TempoClass, e: EnergyLevel, m: Mood, t: Texture)
    ensures TempoClassNamed(c.Name()) == Some(c) && EnergyLevelNamed(e.Name()) == Some(e)
    ensures MoodNamed(m.Name()) == Some(m) && TextureNamed(t.Name()) == Some(t)
  {
  }

  /** The classification that a dictionary's four label strings name, if they all name one. */
  function LabelsOf(f: Features): (r: Option<FeatureClass>)
    ensures r.Some? ==> f.tempoClass == r.value.tempoClass.Name() && f.energy == r.value.energy.Name()
    ensures r.Some? ==> f.mood == r.value.mood.Name() && f.texture == r.value.texture.Name()
  {
    match (TempoClassNamed(f.tempoClass), EnergyLevelNamed(f.energy), MoodNamed(f.mood), TextureNamed(f.texture))
    case (Some(c), Some(e), Some(m), Some(t)) => Some(FeatureClass(c, e, m, t))
    case _ => None
  }

  /** The label entries of the analyser's result dictionary; the dominant
      pitch is passed through and the tempo is stored unrounded. The four
      strings name exactly the classification of the descriptors. */
  function ToFeatures(d: Descriptors, dominantPitch: int): (f: Features)
    ensures f.tempo == d.tempo && f.dominantPitch == dominantPitch
    ensures LabelsOf(f) == Some(Classify(d))
  {
    var fc := Classify(d);
    NamesReadBack(fc.tempoClass, fc.energy, fc.mood, fc.texture);
    Features(d.tempo, fc.tempoClass.Name(), fc.energy.Name(), fc.mood.Name(), fc.texture.Name(), dominantPitch)
  }

  /** A sample clip: upbeat, loud, bright and percussive. */
  const EXAMPLE := Descriptors(
    tempo := 140.0, rms := 0.25, harmonicRatio := 0.3, centroid := 4500.0, contrast := 10.0,
    zcr := 0.05, bandwidth := 1800.0, harmonicEnergy := 0.2, percussiveEnergy := 0.5)

  lemma ExampleClassification()
    ensures Classify(EXAMPLE) == FeatureClass(Upbeat, High, Euphoric, Rhythmic)
  {
  }
}
