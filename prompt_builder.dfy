/** The prompt builder: constant lookup tables keyed by the analyser's labels,
    and the functions that pick a scene, a colour style and a weather phrase
    and render them into the image prompt. The random choices are injected as
    natural-number picks. */
module PromptBuilder {
  import opened PyText
  import opened Wrappers
  import AudioAnalyzer

  /** A non-empty list of phrases that random.choice draws from. */
  type Candidates = s: seq<Phrase> | |s| > 0 witness ["x"]

  // ---------------------------------------------------------------------------
  // The tables.

  /** A scene of the (mood, energy) table: never one of the default scenes. */
  type TableScene = s: Phrase | s !in DEFAULT_SCENES witness "x"

  type SceneList = s: seq<TableScene> | |s| > 0 witness ["x"]

  const MELANCHOLIC_MINIMAL_SCENES: seq<TableScene> := [
    "abandoned cathedral in rain",
    "lonely lighthouse at dusk",
    "empty train station at night",
    "foggy cemetery with ancient trees"]

  const MELANCHOLIC_LOW_SCENES: seq<TableScene> := [
    "rainy city street at night",
    "solitary figure on misty bridge",
    "autumn forest with falling leaves",
    "old pier during storm"]

  const EMOTIONAL_LOW_SCENES: seq<TableScene> := [
    "sunset over calm ocean",
    "cherry blossoms in moonlight",
    "snow-covered village at dawn",
    "mountain lake at golden hour"]

  const EMOTIONAL_MEDIUM_SCENES: seq<TableScene> := [
    "aurora borealis over frozen lake",
    "floating lanterns in night sky",
    "ancient temple in cherry blossom garden",
    "waterfall in mystical forest"]

  const AGGRESSIVE_HIGH_SCENES: seq<TableScene> := [
    "volcanic eruption with lightning",
    "epic battle on stormy cliffs",
    "dragon emerging from inferno",
    "cyberpunk city in chaos"]

  const AGGRESSIVE_INTENSE_SCENES: seq<TableScene> := [
    "apocalyptic cityscape with fire",
    "massive tsunami hitting coast",
    "warship battle in thunderstorm",
    "demon army marching"]

  const TENSE_MEDIUM_SCENES: seq<TableScene> := [
    "dark alley in noir city",
    "abandoned asylum corridor",
    "foggy forest with glowing eyes",
    "submarine in deep abyss"]

  const TENSE_HIGH_SCENES: seq<TableScene> := [
    "storm over gothic castle",
    "chase through neon streets",
    "escape from collapsing temple",
    "standoff in wild west town"]

  const EUPHORIC_HIGH_SCENES: seq<TableScene> := [
    "fireworks over futuristic city",
    "rave in crystal cave",
    "sunrise from mountain peak",
    "parade through magical kingdom"]

  const EUPHORIC_INTENSE_SCENES: seq<TableScene> := [
    "supernova explosion in space",
    "festival of lights celebration",
    "phoenix rising from flames",
    "cosmic dance of galaxies"]

  const BRIGHT_MEDIUM_SCENES: seq<TableScene> := [
    "sunny meadow with wildflowers",
    "tropical beach paradise",
    "hot air balloons at sunrise",
    "colorful coral reef"]

  const BRIGHT_HIGH_SCENES: seq<TableScene> := [
    "vibrant carnival scene",
    "rainbow over waterfall",
    "kite festival on beach",
    "butterfly garden in bloom"]

  const DRIVING_HIGH_SCENES: seq<TableScene> := [
    "motorcycle racing through canyon",
    "train through mountain pass",
    "speedboat cutting through waves",
    "car chase in rain"]

  const DRIVING_INTENSE_SCENES: seq<TableScene> := [
    "rocket launch at night",
    "avalanche in mountains",
    "stampede across savanna",
    "jet flying through canyon"]

  const EPIC_MEDIUM_SCENES: seq<TableScene> := [
    "ancient castle on cliff",
    "fleet of ships at sunset",
    "army before great battle",
    "throne room of ice palace"]

  const EPIC_HIGH_SCENES: seq<TableScene> := [
    "dragon flying over kingdom",
    "giant robot in destroyed city",
    "portal opening between worlds",
    "wizard summoning storm"]

  const ATMOSPHERIC_LOW_SCENES: seq<TableScene> := [
    "misty bamboo forest",
    "underwater ruins",
    "desert oasis at night",
    "cave with bioluminescent plants"]

  const ATMOSPHERIC_MEDIUM_SCENES: seq<TableScene> := [
    "alien planet landscape",
    "steampunk airship dock",
    "enchanted library",
    "crystal ice palace"]

  const SCENE_OPTIONS: map<(string, string), SceneList> := map[
    ("melancholic", "minimal") := MELANCHOLIC_MINIMAL_SCENES,
    ("melancholic", "low") := MELANCHOLIC_LOW_SCENES,
    ("emotional", "low") := EMOTIONAL_LOW_SCENES,
    ("emotional", "medium") := EMOTIONAL_MEDIUM_SCENES,
    ("aggressive", "high") := AGGRESSIVE_HIGH_SCENES,
    ("aggressive", "intense") := AGGRESSIVE_INTENSE_SCENES,
    ("tense", "medium") := TENSE_MEDIUM_SCENES,
    ("tense", "high") := TENSE_HIGH_SCENES,
    ("euphoric", "high") := EUPHORIC_HIGH_SCENES,
    ("euphoric", "intense") := EUPHORIC_INTENSE_SCENES,
    ("bright", "medium") := BRIGHT_MEDIUM_SCENES,
    ("bright", "high") := BRIGHT_HIGH_SCENES,
    ("driving", "high") := DRIVING_HIGH_SCENES,
    ("driving", "intense") := DRIVING_INTENSE_SCENES,
    ("epic", "medium") := EPIC_MEDIUM_SCENES,
    ("epic", "high") := EPIC_HIGH_SCENES,
    ("atmospheric", "low") := ATMOSPHERIC_LOW_SCENES,
    ("atmospheric", "medium") := ATMOSPHERIC_MEDIUM_SCENES
  ]

  /** Colour palettes by chroma bin, 0 = C to 11 = B. */
  const COLOR_PALETTES: map<int, string> := map[
    0 := "deep reds and burgundy",
    1 := "coral and rose gold",
    2 := "warm oranges and amber",
    3 := "golden yellow and honey",
    4 := "lime green and chartreuse",
    5 := "forest green and emerald",
    6 := "teal and turquoise",
    7 := "ocean blue and azure",
    8 := "indigo and royal blue",
    9 := "deep purple and violet",
    10 := "magenta and fuchsia",
    11 := "silver and moonlight white"
  ]

  const LIGHTING_OPTIONS: map<string, string> := map[
    "minimal" := "dim ambient glow with single light source",
    "low" := "soft diffused lighting with gentle shadows",
    "medium" := "balanced cinematic lighting with depth",
    "high" := "dramatic volumetric rays with strong contrast",
    "intense" := "explosive light bursts with lens flares"
  ]

  const ATMOSPHERE_OPTIONS: map<string, string> := map[
    "smooth" := "serene and dreamlike, soft focus edges",
    "textured" := "gritty and detailed, visible particles in air",
    "rhythmic" := "dynamic motion blur, sense of movement",
    "layered" := "rich depth of field, multiple planes of interest"
  ]

  const STYLE_OPTIONS: map<string, string> := map[
    "slow" := "painterly brushstrokes, meditative composition",
    "moderate" := "balanced composition, classical framing",
    "upbeat" := "dynamic angles, energetic composition",
    "fast" := "motion blur, extreme angles, kinetic energy"
  ]

  const MELANCHOLIC_WEATHER: seq<Phrase> := ["gentle rain", "thick fog", "overcast twilight", "autumn mist"]
  const EMOTIONAL_WEATHER: seq<Phrase> := ["golden hour light", "soft snowfall", "morning dew", "starlit night"]
  const AGGRESSIVE_WEATHER: seq<Phrase> := ["raging thunderstorm", "volcanic smoke", "dust storm", "fire embers"]
  const TENSE_WEATHER: seq<Phrase> := ["approaching storm", "eerie fog", "eclipse darkness", "ominous clouds"]
  const EUPHORIC_WEATHER: seq<Phrase> := ["brilliant sunshine", "rainbow after rain", "northern lights", "meteor shower"]
  const BRIGHT_WEATHER: seq<Phrase> := ["clear blue sky", "puffy white clouds", "spring sunshine", "crystal clear air"]
  const DRIVING_WEATHER: seq<Phrase> := ["wind and dust", "rain streaks", "snow flurry", "heat haze"]
  const EPIC_WEATHER: seq<Phrase> := ["dramatic clouds", "god rays", "magical aurora", "cosmic nebula"]
  const ATMOSPHERIC_WEATHER: seq<Phrase> := ["mystical haze", "ethereal glow", "ambient fog", "dappled light"]

  const WEATHER_OPTIONS: map<string, Candidates> := map[
    "melancholic" := MELANCHOLIC_WEATHER,
    "emotional" := EMOTIONAL_WEATHER,
    "aggressive" := AGGRESSIVE_WEATHER,
    "tense" := TENSE_WEATHER,
    "euphoric" := EUPHORIC_WEATHER,
    "bright" := BRIGHT_WEATHER,
    "driving" := DRIVING_WEATHER,
    "epic" := EPIC_WEATHER,
    "atmospheric" := ATMOSPHERIC_WEATHER
  ]

  const DEFAULT_SCENES: seq<Phrase> := [
    "mystical landscape at twilight",
    "dramatic natural vista",
    "fantastical environment"
  ]

  const DEFAULT_WEATHER: seq<Phrase> := ["dramatic sky"]
  const DEFAULT_PALETTE := "rich jewel tones"
  const DEFAULT_LIGHTING := "cinematic lighting"
  const DEFAULT_ATMOSPHERE := "atmospheric perspective"
  const DEFAULT_STYLE := "cinematic composition"

  /** The fixed closing lines of every prompt. */
  const QUALITY_SUFFIX := "Ultra detailed digital art, 8K resolution, trending on ArtStation.\n"
                        + "Cinematic wide shot, professional concept art, no text, no watermark, no signature."

  // ---------------------------------------------------------------------------
  // random.choice and dict.get.

  /** random.choice(options), with the random draw supplied as pick. */
  function Choose(options: Candidates, pick: nat): (r: Phrase)
    ensures r in options
  {
    options[pick % |options|]
  }

  /** Every candidate is drawn by some pick. */
  lemma ChooseReachesEvery(options: Candidates, x: Phrase)
    requires x in options
    ensures exists pick: nat :: Choose(options, pick) == x
  {
    var i :| 0 <= i < |options| && options[i] == x;
    assert i % |options| == i;
    assert Choose(options, i) == x;
  }

  /** dict.get(key, default). */
  function Get<K, V>(m: map<K, V>, key: K, default: V): (r: V)
    ensures key in m ==> r == m[key]
    ensures key !in m ==> r == default
  {
    if key in m then m[key] else default
  }

  // ---------------------------------------------------------------------------
  // Scene selection.

  /** The keys tried in order when the exact key is missing: the mood with the
      energy or "medium", then "atmospheric" with the energy or "medium". */
  function FallbackKeys(mood: string, energy: string): seq<(string, string)> {
    [(mood, energy), (mood, "medium"), ("atmospheric", energy), ("atmospheric", "medium")]
  }

  /** Index of the first key present in the table, or |keys| when none is. */
  function FirstPresent<K, V>(keys: seq<K>, table: map<K, V>): (i: nat)
    ensures i <= |keys|
    ensures forall j :: 0 <= j < i ==> keys[j] !in table
    ensures i < |keys| ==> keys[i] in table
  {
    if keys == [] then 0
    else if keys[0] in table then 0
    else 1 + FirstPresent(keys[1..], table)
  }

  function SelectScene(mood: string, energy: string, pick: nat): (r: Phrase)
    ensures var keys := FallbackKeys(mood, energy);
            var i := FirstPresent(keys, SCENE_OPTIONS);
            if i < |keys| then r in SCENE_OPTIONS[keys[i]] else r in DEFAULT_SCENES
  {
    var key := (mood, energy);
    if key in SCENE_OPTIONS then
      Choose(SCENE_OPTIONS[key], pick)
    else
      var keys := FallbackKeys(mood, energy);
      var i := FirstPresent(keys, SCENE_OPTIONS);
      if i < |keys| then Choose(SCENE_OPTIONS[keys[i]], pick)
      else Choose(DEFAULT_SCENES, pick)
  }

  /** An exact (mood, energy) entry supplies the scene, and each of its scenes can be drawn. */
  lemma SelectSceneExact(mood: string, energy: string)
    requires (mood, energy) in SCENE_OPTIONS
    ensures forall pick: nat :: SelectScene(mood, energy, pick) in SCENE_OPTIONS[(mood, energy)]
    ensures forall scene :: scene in SCENE_OPTIONS[(mood, energy)] ==>
              exists pick: nat :: SelectScene(mood, energy, pick) == scene
  {
    var options := SCENE_OPTIONS[(mood, energy)];
    forall scene | scene in options
      ensures exists pick: nat :: SelectScene(mood, energy, pick) == scene
    {
      ChooseReachesEvery(options, scene);
      var pick: nat :| Choose(options, pick) == scene;
      assert SelectScene(mood, energy, pick) == scene;
    }
  }

  /** ("atmospheric", "medium") is always present, so the search over the
      fallback keys always succeeds. */
  lemma FallbackSearchSucceeds(mood: string, energy: string)
    ensures FirstPresent(FallbackKeys(mood, energy), SCENE_OPTIONS) < 4
  {
    var keys := FallbackKeys(mood, energy);
    assert keys[3] == ("atmospheric", "medium") && keys[3] in SCENE_OPTIONS;
  }

  /** Hence the default scenes are never used: every scene comes from a table entry. */
  lemma DefaultScenesUnreachable(mood: string, energy: string, pick: nat)
    ensures exists key :: key in SCENE_OPTIONS && SelectScene(mood, energy, pick) in SCENE_OPTIONS[key]
    ensures SelectScene(mood, energy, pick) !in DEFAULT_SCENES
  {
    var keys := FallbackKeys(mood, energy);
    var i := FirstPresent(keys, SCENE_OPTIONS);
    FallbackSearchSucceeds(mood, energy);
    assert keys[i] in SCENE_OPTIONS && SelectScene(mood, energy, pick) in SCENE_OPTIONS[keys[i]];
  }

  // ---------------------------------------------------------------------------
  // Colour style.

  function Palette(pitch: int): (r: string)
    ensures 0 <= pitch < 12 ==> r == COLOR_PALETTES[pitch]
    ensures !(0 <= pitch < 12) ==> r == DEFAULT_PALETTE
  {
    Get(COLOR_PALETTES, pitch, DEFAULT_PALETTE)
  }

  /** The four ways a palette is dressed, chosen by mood. */
  datatype Tone = Muted | Intense | Vibrant | Graded

  function ToneOf(mood: string): (t: Tone)
    ensures t == Muted <==> mood == "melancholic" || mood == "tense"
    ensures t == Tone.Intense <==> mood == "aggressive" || mood == "driving"
    ensures t == Vibrant <==> mood == "euphoric" || mood == "bright"
    ensures t == Graded <==> mood !in {"melancholic", "tense", "aggressive", "driving", "euphoric", "bright"}
  {
    if mood in ["melancholic", "tense"] then Muted
    else if mood in ["aggressive", "driving"] then Intense
    else if mood in ["euphoric", "bright"] then Vibrant
    else Graded
  }

  function Prefix(t: Tone): string {
    match t
    case Muted => "muted "
    case Intense => "intense "
    case Vibrant => "vibrant "
    case Graded => ""
  }

  function Suffix(t: Tone): string {
    match t
    case Muted => " with deep shadows"
    case Intense => " with stark contrasts"
    case Vibrant => " with luminous highlights"
    case Graded => " with cinematic grading"
  }

  /** The palette between the tone's prefix and suffix. */
  function Dress(t: Tone, palette: string): (s: string)
    ensures HasAffixes(s, t) && s[|Prefix(t)|..|s| - |Suffix(t)|] == palette
  {
    ConcatWraps(Prefix(t), palette, Suffix(t));
    Prefix(t) + palette + Suffix(t)
  }

  /** _build_color_style: the pitch's palette dressed in the mood's tone. */
  function ColorStyle(pitch: int, mood: string): (s: string)
    ensures HasAffixes(s, ToneOf(mood))
    ensures s[|Prefix(ToneOf(mood))|..|s| - |Suffix(ToneOf(mood))|] == Palette(pitch)
  {
    Dress(ToneOf(mood), Palette(pitch))
  }

  predicate HasAffixes(s: string, t: Tone) {
    Wraps(s, Prefix(t), Suffix(t))
  }

  /** Recovers the tone and the palette from a colour style. */
  function Undress(s: string): (r: Option<(Tone, string)>)
    ensures r.Some? ==> Dress(r.value.0, r.value.1) == s
  {
    var t :=
      if HasAffixes(s, Muted) then Some(Muted)
      else if HasAffixes(s, Tone.Intense) then Some(Tone.Intense)
      else if HasAffixes(s, Vibrant) then Some(Vibrant)
      else if HasAffixes(s, Graded) then Some(Graded)
      else None;
    match t
    case None => None
    case Some(t) =>
      WrapsSplit(s, Prefix(t), Suffix(t));
      Some((t, s[|Prefix(t)|..|s| - |Suffix(t)|]))
  }

  /** The graded suffix ends in 'g' and the other three in 's'; the other three
      prefixes start with 'm', 'i' and 'v'. */
  lemma AffixMarks(t: Tone)
    ensures |Suffix(t)| > 0 && Suffix(t)[|Suffix(t)| - 1] == if t == Graded then 'g' else 's'
    ensures t != Graded ==>
              |Prefix(t)| > 0 && Prefix(t)[0] == if t == Muted then 'm' else if t == Tone.Intense then 'i' else 'v'
  {
  }

  /** A dressed palette carries the affixes of its own tone and of no other. */
  lemma DressAffixes(t: Tone, u: Tone, palette: string)
    ensures HasAffixes(Dress(t, palette), u) <==> u == t
  {
    var s := Dress(t, palette);
    if u != t {
      AffixMarks(t);
      AffixMarks(u);
      WrapsEnds(s, Prefix(t), Suffix(t));
      WrapsEnds(s, Prefix(u), Suffix(u));
    }
  }

  /** The colour style records both the mood's tone and the palette: undressing it gives them back. */
  lemma UndressDress(t: Tone, palette: string)
    ensures Undress(Dress(t, palette)) == Some((t, palette))
  {
    DressAffixes(t, Muted, palette);
    DressAffixes(t, Tone.Intense, palette);
    DressAffixes(t, Vibrant, palette);
    DressAffixes(t, Graded, palette);
  }

  lemma ColorStyleParts(pitch: int, mood: string)
    ensures Undress(ColorStyle(pitch, mood)) == Some((ToneOf(mood), Palette(pitch)))
  {
    UndressDress(ToneOf(mood), Palette(pitch));
  }

  // ---------------------------------------------------------------------------
  // Weather.

  function SelectWeather(mood: string, pick: nat): (r: Phrase)
    ensures mood in WEATHER_OPTIONS ==> r in WEATHER_OPTIONS[mood]
    ensures mood !in WEATHER_OPTIONS ==> r == "dramatic sky"
  {
    Choose(Get(WEATHER_OPTIONS, mood, DEFAULT_WEATHER), pick)
  }

  /** "dramatic sky" is drawn exactly for the moods the table lacks. */
  lemma DramaticSkyOnlyForUnmapped(mood: string, pick: nat)
    ensures SelectWeather(mood, pick) == "dramatic sky" <==> mood !in WEATHER_OPTIONS
  {
  }

  /** Every mood label the analyser emits has a weather entry. */
  lemma WeatherCoversMoods(m: AudioAnalyzer.Mood)
    ensures m.Name() in WEATHER_OPTIONS
  {
  }

  // ---------------------------------------------------------------------------
  // The prompt.

  function Lighting(energy: string): (r: string)
    ensures energy in LIGHTING_OPTIONS ==> r == LIGHTING_OPTIONS[energy]
    ensures energy !in LIGHTING_OPTIONS ==> r == DEFAULT_LIGHTING
  {
    Get(LIGHTING_OPTIONS, energy, DEFAULT_LIGHTING)
  }

  function Atmosphere(texture: string): (r: string)
    ensures texture in ATMOSPHERE_OPTIONS ==> r == ATMOSPHERE_OPTIONS[texture]
    ensures texture !in ATMOSPHERE_OPTIONS ==> r == DEFAULT_ATMOSPHERE
  {
    Get(ATMOSPHERE_OPTIONS, texture, DEFAULT_ATMOSPHERE)
  }

  function Style(tempoClass: string): (r: string)
    ensures tempoClass in STYLE_OPTIONS ==> r == STYLE_OPTIONS[tempoClass]
    ensures tempoClass !in STYLE_OPTIONS ==> r == DEFAULT_STYLE
  {
    Get(STYLE_OPTIONS, tempoClass, DEFAULT_STYLE)
  }

  /** The prompt's f-string, with its fixed closing text as a parameter and
      each line break written as a piece of its own. */
  function Template(scene: string, weather: string, color: string, lighting: string, atmosphere: string, style: string, closing: string): string {
    scene + ", " + weather + "." + "\n"
    + "Color palette: " + color + "." + "\n"
    + "Lighting: " + lighting + "." + "\n"
    + "Atmosphere: " + atmosphere + "." + "\n"
    + "Style: " + style + "." + "\n"
    + closing
  }

  /** The prompt before stripping. */
  function Render(scene: string, weather: string, color: string, lighting: string, atmosphere: string, style: string): string {
    Template(scene, weather, color, lighting, atmosphere, style, QUALITY_SUFFIX)
  }

  /** The template as its five field lines, each followed by a line break, then the closing text. */
  lemma TemplateShape(scene: string, weather: string, color: string, lighting: string, atmosphere: string, style: string, closing: string)
    ensures Template(scene, weather, color, lighting, atmosphere, style, closing) ==
              (scene + ", " + weather + ".") + "\n" + (("Color palette: " + color + ".") + "\n" + (("Lighting: " + lighting + ".")
              + "\n" + (("Atmosphere: " + atmosphere + ".") + "\n" + (("Style: " + style + ".") + "\n" + closing))))
  {
  }

  /** When no field holds a newline, the template's lines are scene and weather,
      then one line per labelled field, then the lines of the closing text. */
  lemma TemplateLines(scene: string, weather: string, color: string, lighting: string, atmosphere: string, style: string, closing: string)
    requires '\n' !in scene && '\n' !in weather && '\n' !in color
    requires '\n' !in lighting && '\n' !in atmosphere && '\n' !in style
    ensures Lines(Template(scene, weather, color, lighting, atmosphere, style, closing)) ==
              [scene + ", " + weather + "."]
              + (["Color palette: " + color + "."]
              + (["Lighting: " + lighting + "."]
              + (["Atmosphere: " + atmosphere + "."]
              + (["Style: " + style + "."]
              + Lines(closing)))))
  {
    var l1 := scene + ", " + weather + ".";
    var l2 := "Color palette: " + color + ".";
    var l3 := "Lighting: " + lighting + ".";
    var l4 := "Atmosphere: " + atmosphere + ".";
    var l5 := "Style: " + style + ".";
    assert '\n' !in l1 && '\n' !in l2 && '\n' !in l3 && '\n' !in l4 && '\n' !in l5;
    var t5 := l5 + "\n" + closing;
    LinesCons(l5, closing);
    var t4 := l4 + "\n" + t5;
    LinesCons(l4, t5);
    var t3 := l3 + "\n" + t4;
    LinesCons(l3, t4);
    var t2 := l2 + "\n" + t3;
    LinesCons(l2, t3);
    LinesCons(l1, t2);
    TemplateShape(scene, weather, color, lighting, atmosphere, style, closing);
  }

  lemma RenderLines(scene: string, weather: string, color: string, lighting: string, atmosphere: string, style: string)
    requires '\n' !in scene && '\n' !in weather && '\n' !in color
    requires '\n' !in lighting && '\n' !in atmosphere && '\n' !in style
    ensures Lines(Render(scene, weather, color, lighting, atmosphere, style)) ==
              [scene + ", " + weather + "."]
              + (["Color palette: " + color + "."]
              + (["Lighting: " + lighting + "."]
              + (["Atmosphere: " + atmosphere + "."]
              + (["Style: " + style + "."]
              + Lines(QUALITY_SUFFIX)))))
  {
    TemplateLines(scene, weather, color, lighting, atmosphere, style, QUALITY_SUFFIX);
  }

  /** A prompt that starts with a table phrase is already stripped. */
  lemma RenderIsTrimmed(scene: Phrase, weather: string, color: string, lighting: string, atmosphere: string, style: string)
    ensures Strip(Render(scene, weather, color, lighting, atmosphere, style)) == Render(scene, weather, color, lighting, atmosphere, style)
  {
    var rendered := Render(scene, weather, color, lighting, atmosphere, style);
    assert rendered[0] == scene[0];
    assert rendered[|rendered| - 1] == QUALITY_SUFFIX[|QUALITY_SUFFIX| - 1] == '.';
    StripTrimmed(rendered);
  }

  function BuildPrompt(features: AudioAnalyzer.Features, scenePick: nat, weatherPick: nat): (prompt: string)
    ensures prompt == Render(
              SelectScene(features.mood, features.energy, scenePick),
              SelectWeather(features.mood, weatherPick),
              ColorStyle(features.dominantPitch, features.mood),
              Lighting(features.energy),
              Atmosphere(features.texture),
              Style(features.tempoClass))
  {
    var scene := SelectScene(features.mood, features.energy, scenePick);
    var color := ColorStyle(features.dominantPitch, features.mood);
    var lighting := Lighting(features.energy);
    var atmosphere := Atmosphere(features.texture);
    var style := Style(features.tempoClass);
    var weather := SelectWeather(features.mood, weatherPick);
    var rendered := Render(scene, weather, color, lighting, atmosphere, style);
    RenderIsTrimmed(scene, weather, color, lighting, atmosphere, style);
    Strip(rendered)
  }

  /** The tempo is read but does not influence the prompt. */
  lemma PromptIgnoresTempo(features: AudioAnalyzer.Features, tempo: real, scenePick: nat, weatherPick: nat)
    ensures BuildPrompt(features.(tempo := tempo), scenePick, weatherPick) == BuildPrompt(features, scenePick, weatherPick)
  {
  }

  /** Every energy label has a lighting entry, so the default lighting never appears for it. */
  lemma LightingCoversEnergy(e: AudioAnalyzer.EnergyLevel)
    ensures e.Name() in LIGHTING_OPTIONS && Lighting(e.Name()) != DEFAULT_LIGHTING
  {
  }

  lemma AtmosphereCoversTexture(t: AudioAnalyzer.Texture)
    ensures t.Name() in ATMOSPHERE_OPTIONS && Atmosphere(t.Name()) != DEFAULT_ATMOSPHERE
  {
  }

  lemma StyleCoversTempo(c: AudioAnalyzer.TempoClass)
    ensures c.Name() in STYLE_OPTIONS && Style(c.Name()) != DEFAULT_STYLE
  {
  }

  /** Every chroma bin has a palette of its own, so the default palette only appears off the 0..11 range. */
  lemma PaletteDefaultOnlyOffRange(pitch: int)
    ensures Palette(pitch) == DEFAULT_PALETTE <==> !(0 <= pitch < 12)
  {
    if 0 <= pitch < 12 {
      assert pitch in {0, 1, 2, 3, 4, 5, 6, 7, 8, 9, 10, 11};
    }
  }

  /** For a dictionary the analyser produced, every lookup hits its table:
      none of the lighting, atmosphere, style, palette and weather defaults appears. */
  lemma ClassifiedLookupsHit(d: AudioAnalyzer.Descriptors, pitch: int, weatherPick: nat)
    requires 0 <= pitch < 12
    ensures var f := AudioAnalyzer.ToFeatures(d, pitch);
            && Lighting(f.energy) != DEFAULT_LIGHTING
            && Atmosphere(f.texture) != DEFAULT_ATMOSPHERE
            && Style(f.tempoClass) != DEFAULT_STYLE
            && Palette(f.dominantPitch) != DEFAULT_PALETTE
            && f.mood in WEATHER_OPTIONS
            && SelectWeather(f.mood, weatherPick) in WEATHER_OPTIONS[f.mood]
  {
    var fc := AudioAnalyzer.Classify(d);
    LightingCoversEnergy(fc.energy);
    AtmosphereCoversTexture(fc.texture);
    StyleCoversTempo(fc.tempoClass);
    PaletteDefaultOnlyOffRange(pitch);
    WeatherCoversMoods(fc.mood);
  }

  /** A sample clip: pitch 7 (G) gives the ocean-blue palette, dressed vibrant for a euphoric clip, under high-energy lighting. */
  lemma ExamplePrompt(scenePick: nat, weatherPick: nat)
    ensures var f := AudioAnalyzer.ToFeatures(AudioAnalyzer.EXAMPLE, 7);
            BuildPrompt(f, scenePick, weatherPick) == Render(
              SelectScene("euphoric", "high", scenePick),
              SelectWeather("euphoric", weatherPick),
              Dress(Vibrant, "ocean blue and azure"),
              "dramatic volumetric rays with strong contrast",
              "dynamic motion blur, sense of movement",
              "dynamic angles, energetic composition")
  {
    AudioAnalyzer.ExampleClassification();
    var f := AudioAnalyzer.ToFeatures(AudioAnalyzer.EXAMPLE, 7);
    assert f == AudioAnalyzer.Features(140.0, "upbeat", "high", "euphoric", "rhythmic", 7);
    ExampleLookups();
  }

  /** The table entries the sample clip's labels select. */
  lemma ExampleLookups()
    ensures ColorStyle(7, "euphoric") == Dress(Vibrant, "ocean blue and azure")
    ensures Lighting("high") == "dramatic volumetric rays with strong contrast"
    ensures Atmosphere("rhythmic") == "dynamic motion blur, sense of movement"
    ensures Style("upbeat") == "dynamic angles, energetic composition"
  {
  }
}
