# Audio-to-image prompt core, modelled in Dafny

This project models the pure core of a service that turns a piece of music into
an image-generation prompt:

- **The classifier** (`audio_analyzer.py`). Four first-match threshold cascades turn
  the numeric descriptors of a clip into closed label sets. Tempo becomes
  slow/moderate/upbeat/fast. RMS loudness becomes minimal/low/medium/high/intense.
  There is a nine-way mood and a four-way texture. The labels are datatypes, and
  `Name()` gives the string the analyser stores in its result dictionary.
- **The prompt builder** (`prompt_builder.py`). It has constant tables: scenes keyed by
  (mood, energy), palettes keyed by chroma bin, and lighting, atmosphere, style and
  weather phrases. It has a fallback search over scene keys, a colour style that
  depends on the mood, and a fixed multi-line template passed through `str.strip()`.
  The builder reads the analyser's dictionary, so its keys are strings. That makes
  the `dict.get` defaults reachable for strings outside the label sets. The model
  proves that those defaults never fire for dictionaries the analyser produces.
- **Embedding-window shaping** (`AudioProcessor.prepare_for_embedding`). A clip is cut
  to `30 * sr` samples or zero-padded to `5 * sr` samples. Slicing follows numpy:
  a negative bound counts from the end.

Each `random.choice` becomes an injected `pick: nat` that selects
`options[pick % |options|]`. The model proves that the choice lies in the list and
that every element can be drawn. Python's `str.strip()` is modelled with the full
`str.isspace()` character set.

Files:
- `audio_analyzer.dfy`: module `AudioAnalyzer`.
- `prompt_builder.dfy`: module `PromptBuilder`.
- `py_text.dfy`: module `PyText`, for `str.strip`, `str.split("\n")` and the string slicing facts.
- `audio_processor.dfy`: module `AudioProcessor`.
- `wrappers.dfy`: module `Wrappers`, the `Option` type used by the decoders.

A sample clip shows how the texture rules interact. Take tempo 140, rms 0.25,
harmonic ratio 0.3, centroid 4500, contrast 10, zcr 0.05, bandwidth 1800,
harmonic energy 0.2 and percussive energy 0.5. The smooth and textured rules fail,
and the rhythmic rule (`audio_analyzer.py:164`) tests `0.5 > 0.2 * 1.5`, which
holds, so the texture is `rhythmic`. See `AudioAnalyzer.ExampleClassification`.

The prompt template is the f-string of `build_prompt`. In the model, each of its
line breaks is written as a separate `"\n"` piece. The text is unchanged, and the
proof that the prompt has one line per field can see each line boundary.

## Model

| member | source | states |
|---|---|---|
| `AudioAnalyzer.ClassifyTempo` | audio_analyzer.py:94-103 | the four buckets are exactly the intervals below 80, [80,120), [120,150) and from 150 up: closed below, open above |
| `AudioAnalyzer.ClassifyTempoMonotone` | audio_analyzer.py:94-103 | a higher tempo never gets a slower bucket |
| `AudioAnalyzer.TempoBoundaries` | audio_analyzer.py:94-103 | 79.99 is slow, 80 moderate, 120 upbeat, 150 fast |
| `AudioAnalyzer.ClassifyEnergy` | audio_analyzer.py:106-117 | the five buckets are exactly the intervals split at 0.02, 0.05, 0.15 and 0.3, each closed below and open above |
| `AudioAnalyzer.ClassifyEnergyMonotone` | audio_analyzer.py:106-117 | a higher RMS never gets a lower energy level |
| `AudioAnalyzer.EnergyBoundaries` | audio_analyzer.py:106-117 | rms 0.3 is intense, 0.2999 is high, and the lower boundaries behave the same way |
| `AudioAnalyzer.ClassifyMood` | audio_analyzer.py:120-149 | the mood is the first in rule order whose rule holds for the descriptors (atmospheric always holds) |
| `AudioAnalyzer.FirstMatchingMoodUnique` | audio_analyzer.py:132-149 | at most one mood is first-matching, so the cascade's result is fully determined by the rule table |
| `AudioAnalyzer.ClassifyMoodAtmosphericExactly` | audio_analyzer.py:132-149 | atmospheric is returned if and only if all eight earlier rules fail |
| `AudioAnalyzer.MelancholicPrecedesAggressive` | audio_analyzer.py:132-137 | a clip meeting rule 1 is melancholic even when the aggressive rule also holds |
| `AudioAnalyzer.LoudDarkHarmonicIsEmotional` | audio_analyzer.py:132-135 | harmonic ratio > 0.7, centroid < 2000 and rms >= 0.1 give emotional, not melancholic |
| `AudioAnalyzer.ClassifyTexture` | audio_analyzer.py:152-167 | the texture is the first in rule order whose rule holds (layered always holds) |
| `AudioAnalyzer.FirstMatchingTextureUnique` | audio_analyzer.py:160-167 | at most one texture is first-matching |
| `AudioAnalyzer.SmoothIgnoresZcr` | audio_analyzer.py:160-163 | bandwidth < 1500 with harmonic ratio > 0.6 is smooth whatever the zero-crossing rate |
| `AudioAnalyzer.ClassifyTextureRhythmicExactly` | audio_analyzer.py:160-167 | rhythmic exactly when percussive > 1.5 x harmonic energy and neither the smooth nor the textured rule holds |
| `AudioAnalyzer.Classify` | audio_analyzer.py:56-77 | tempo and energy labels come from their cascades; mood and texture are the first-matching ones |
| `AudioAnalyzer.ExampleClassification` | audio_analyzer.py:94-167 | the sample clip (tempo 140, rms 0.25, centroid 4500, percussive 0.5 against harmonic 0.2, …) is upbeat / high / euphoric / rhythmic |
| `AudioAnalyzer.LabelsOf` | audio_analyzer.py:81-84 | reads the four label strings of a result dictionary back into labels; whatever it returns has exactly those strings as names |
| `AudioAnalyzer.NamesReadBack` | audio_analyzer.py:81-84 | every label's string reads back as that label, so no two labels share a string |
| `AudioAnalyzer.ToFeatures` | audio_analyzer.py:79-91 | the result dictionary passes the tempo and dominant pitch through, and its four label strings read back as exactly the classification of the descriptors |
| `PyText.StripLeading` | prompt_builder.py:225 | the result is a suffix of the input, everything removed is whitespace, and it does not start with whitespace |
| `PyText.StripTrailing` | prompt_builder.py:225 | the result is a prefix of the input, everything removed is whitespace, and it does not end with whitespace |
| `PyText.Strip` | prompt_builder.py:225 | the result is no longer than the input and is empty or neither starts nor ends with whitespace |
| `PyText.StripTrimmed` | prompt_builder.py:225 | stripping a string with no leading or trailing whitespace leaves it unchanged |
| `PromptBuilder.Get` | prompt_builder.py:206 | `dict.get`: the table's value for a present key, the default for an absent one |
| `PromptBuilder.Choose` | prompt_builder.py:234 | the injected choice is an element of the candidate list |
| `PromptBuilder.ChooseReachesEvery` | prompt_builder.py:234 | every candidate is drawn by some pick |
| `PromptBuilder.FirstPresent` | prompt_builder.py:237-240 | returns the index of the first key present in the table; every earlier key is absent; the index equals the key count when none is present |
| `PromptBuilder.SelectScene` | prompt_builder.py:228-242 | the scene comes from the list of the first present key in the order (mood, energy), (mood, "medium"), ("atmospheric", energy), ("atmospheric", "medium"), or from the default scenes when none is present |
| `PromptBuilder.SelectSceneExact` | prompt_builder.py:233-234 | when (mood, energy) is a key, every pick draws from that key's list and each of its scenes can be drawn |
| `PromptBuilder.FallbackSearchSucceeds` | prompt_builder.py:112-117 | ("atmospheric", "medium") is present, so the search over the fallback keys always finds a key |
| `PromptBuilder.DefaultScenesUnreachable` | prompt_builder.py:175-179 | for every mood and energy string, the scene is an element of some table entry and is not one of the default scenes |
| `PromptBuilder.Palette` | prompt_builder.py:247 | pitches 0 to 11 use their table palette; any other pitch gets "rich jewel tones" |
| `PromptBuilder.PaletteDefaultOnlyOffRange` | prompt_builder.py:121-134 | "rich jewel tones" appears exactly for pitches outside 0 to 11 |
| `PromptBuilder.ToneOf` | prompt_builder.py:249-256 | muted exactly for melancholic and tense, intense exactly for aggressive and driving, vibrant exactly for euphoric and bright, and the cinematic grading for every other string |
| `PromptBuilder.Dress` | prompt_builder.py:250-256 | the dressed string begins with the tone's prefix, ends with its suffix, and has the palette between them |
| `PromptBuilder.ColorStyle` | prompt_builder.py:245-256 | the colour style carries the affixes of the mood's tone around the pitch's palette |
| `PromptBuilder.Undress` | prompt_builder.py:249-256 | whatever it recovers from a colour style dresses back into that same string |
| `PromptBuilder.DressAffixes` | prompt_builder.py:249-256 | a dressed palette carries the prefix and suffix of its own tone and of no other tone |
| `PromptBuilder.UndressDress` | prompt_builder.py:249-256 | the four mood wrappings (muted … deep shadows, intense … stark contrasts, vibrant … luminous highlights, … cinematic grading) can be told apart: undressing recovers both the tone and the palette |
| `PromptBuilder.ColorStyleParts` | prompt_builder.py:245-256 | the colour style of a pitch and mood decodes to the mood's tone and the pitch's palette |
| `PromptBuilder.SelectWeather` | prompt_builder.py:259-262 | a mapped mood draws from its own weather list; an unmapped one gets "dramatic sky" |
| `PromptBuilder.DramaticSkyOnlyForUnmapped` | prompt_builder.py:162-172 | "dramatic sky" is drawn if and only if the mood is not a key of the weather table |
| `PromptBuilder.WeatherCoversMoods` | prompt_builder.py:162-172 | each of the nine mood labels has a weather entry |
| `PromptBuilder.LightingCoversEnergy` | prompt_builder.py:137-143 | each energy label has a lighting entry, so "cinematic lighting" never appears for it |
| `PromptBuilder.AtmosphereCoversTexture` | prompt_builder.py:146-151 | each texture label has an atmosphere entry, so "atmospheric perspective" never appears for it |
| `PromptBuilder.StyleCoversTempo` | prompt_builder.py:154-159 | each tempo label has a style entry, so "cinematic composition" never appears for it |
| `PromptBuilder.ClassifiedLookupsHit` | prompt_builder.py:192-215 | for a dictionary the analyser produced with pitch 0 to 11, no lighting, atmosphere, style, palette or weather default appears |
| `PromptBuilder.Lighting` | prompt_builder.py:206 | an energy label in the table gets its lighting phrase; any other string gets "cinematic lighting" |
| `PromptBuilder.Atmosphere` | prompt_builder.py:209 | a texture label in the table gets its atmosphere phrase; any other string gets "atmospheric perspective" |
| `PromptBuilder.Style` | prompt_builder.py:212 | a tempo label in the table gets its style phrase; any other string gets "cinematic composition" |
| `PromptBuilder.TemplateShape` | prompt_builder.py:217-223 | the template is the five field lines, each followed by a line break, then the closing text |
| `PromptBuilder.TemplateLines` | prompt_builder.py:217-223 | when no field contains a newline, splitting the template at newlines gives "scene, weather.", "Color palette: ….", "Lighting: ….", "Atmosphere: ….", "Style: …." and then the lines of the closing text |
| `PromptBuilder.RenderLines` | prompt_builder.py:217-223 | the same for the prompt with its fixed two closing lines |
| `PromptBuilder.RenderIsTrimmed` | prompt_builder.py:217-225 | a prompt that starts with a table phrase is unchanged by `strip()` |
| `PromptBuilder.BuildPrompt` | prompt_builder.py:182-225 | the prompt is exactly the template of scene, weather, colour style, lighting, atmosphere and style followed by the fixed two-line suffix; the final strip changes nothing |
| `PromptBuilder.PromptIgnoresTempo` | prompt_builder.py:192 | the numeric tempo is read but does not affect the prompt |
| `PromptBuilder.ExampleLookups` | prompt_builder.py:206-212 | for pitch 7, mood euphoric, energy high, texture rhythmic and tempo class upbeat, the lookups give the vibrant ocean-blue colour style and the high, rhythmic and upbeat phrases |
| `PromptBuilder.ExamplePrompt` | prompt_builder.py:192-225 | the sample clip, with pitch 7, renders the euphoric/high scene and weather, "vibrant" + "ocean blue and azure" + luminous highlights, and "dramatic volumetric rays with strong contrast" lighting |
| `AudioProcessor.SliceTo` | music-generation-backend/services/audio_processor.py:79 | numpy's `a[:n]`: a prefix of length min(n, len) for n >= 0, and the input without its last -n samples for n < 0 |
| `AudioProcessor.PadEnd` | music-generation-backend/services/audio_processor.py:84 | constant padding keeps the input as a prefix and appends exactly the requested number of zeros |
| `AudioProcessor.PrepareForEmbedding` | music-generation-backend/services/audio_processor.py:65-86 | the result agrees with the input on their common prefix and is zero beyond it; for sr >= 0 its length lies in [5 * sr, 30 * sr] |
| `AudioProcessor.TruncatesLong` | music-generation-backend/services/audio_processor.py:77-79 | a clip longer than 30 * sr samples becomes its first 30 * sr samples |
| `AudioProcessor.PadsShort` | music-generation-backend/services/audio_processor.py:82-84 | a clip shorter than 5 * sr samples becomes the clip followed by zeros up to exactly 5 * sr |
| `AudioProcessor.KeepsFitting` | music-generation-backend/services/audio_processor.py:77-86 | a clip of 5 * sr to 30 * sr samples is returned unchanged |
| `AudioProcessor.Idempotent` | music-generation-backend/services/audio_processor.py:65-86 | for sr >= 0, shaping an already shaped clip changes nothing |
| `AudioProcessor.NegativeRateDropsTail` | music-generation-backend/services/audio_processor.py:77-84 | for sr < 0 there is no padding, and the numpy slice drops the last -30 * sr samples |

## Left out

- Feature extraction in `analyze_audio` is not modelled: loading, beat tracking, HPSS, spectral statistics, the chroma argmax and the harmonic-ratio division. The descriptors arrive as `real` inputs.
- Floating point is not modelled. Descriptors are exact reals, so NaN (which fails every comparison and would fall through to fast, intense, atmospheric and layered) and rounding at the thresholds are absent. The rounding of the result dictionary is also absent: `AudioAnalyzer.ToFeatures` stores the tempo unrounded, and the prompt ignores it anyway.
- Randomness: each `random.choice` is an injected pick. The model proves membership and that every element can be drawn. Uniformity of the draw is not modelled.
- A dictionary missing one of the keys that `build_prompt` reads raises `KeyError` in Python. The model's `Features` record always has all six fields.
- `PyText.Strip`: its own contract states only that the result is trimmed and no longer than the input. What it removes is stated by `StripLeading` and `StripTrailing`, of which it is the composition.
- `AudioProcessor.PrepareForEmbedding`: takes a one-dimensional sample sequence. For multi-channel numpy arrays, `len` and the slice act on the first axis, and that is not modelled. Idempotence holds only for sr >= 0. For sr < 0 each application drops more samples, as `NegativeRateDropsTail` shows.
- The `AudioProcessor` class itself is not modelled: `target_sr` is set once and never read by `prepare_for_embedding`. `process_audio` (file validation, loading, normalisation) is also left out.
- HTTP routing, job handling, storage, configuration, embedding and music-generation inference, and the test scripts are outside this model. They are I/O, framework glue or model inference.
