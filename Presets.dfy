/** The preset table and the two layer enumerations that select presets.

    The heights and angles of the presets are configuration data outside the
    coordinator, so the table is a value handed to the coordinator: every
    property proved here holds for every table. */
module Presets {

  datatype Option<T> = None | Some(value: T)

  /** The named target configurations the coordinator refers to. */
  datatype Preset =
    | ScoreL1 | ScoreL2 | ScoreL3 | ScoreL4
    | IntakeCatch | IntakeGrip
    | ExtractAlgaeLow | ExtractAlgaeHigh
  {
    predicate IsScore() {
      ScoreL1? || ScoreL2? || ScoreL3? || ScoreL4?
    }

    predicate IsAlgaeExtraction() {
      ExtractAlgaeLow? || ExtractAlgaeHigh?
    }
  }

  /** Height and angle of every preset; both lookups are total. */
  datatype PresetTable = PresetTable(height: Preset -> real, angle: Preset -> real)

  /** The four reef layers a coral can be scored on. */
  datatype CoralLayer = L1 | L2 | L3 | L4

  /** The two levels algae can be extracted from. */
  datatype AlgaeExtractionLayer = High | Low

  /** The layer a scoring preset belongs to, read off its name; None for the
      presets that are not scoring presets. */
  function ScoreLayerOf(p: Preset): (r: Option<CoralLayer>)
    ensures r.Some? <==> p.IsScore()
  {
    match p
    case ScoreL1 => Some(L1)
    case ScoreL2 => Some(L2)
    case ScoreL3 => Some(L3)
    case ScoreL4 => Some(L4)
    case _ => None
  }

  /** The level an extraction preset is named after. */
  function AlgaeLevelOf(p: Preset): (r: AlgaeExtractionLayer)
    requires p.IsAlgaeExtraction()
  {
    if p == ExtractAlgaeLow then Low else High
  }

  /** CoralLayer.toPreset: every layer maps to the scoring preset named after it,
      so the mapping is total and ScoreLayerOf undoes it. */
  function CoralLayerToPreset(layer: CoralLayer): (r: Preset)
    ensures r.IsScore()
    ensures ScoreLayerOf(r) == Some(layer)
  {
    match layer
    case L1 => ScoreL1
    case L2 => ScoreL2
    case L3 => ScoreL3
    case L4 => ScoreL4
  }

  /** AlgaeExtractionLayer.toPreset: total onto the extraction presets, and
      crossed as written: each level maps to the preset named after the other. */
  function AlgaeLayerToPreset(layer: AlgaeExtractionLayer): (r: Preset)
    ensures r.IsAlgaeExtraction()
    ensures AlgaeLevelOf(r) != layer
  {
    match layer
    case High => ExtractAlgaeLow
    case Low => ExtractAlgaeHigh
  }

  /** Distinct coral layers select distinct presets. */
  lemma CoralLayerToPresetInjective(a: CoralLayer, b: CoralLayer)
    ensures CoralLayerToPreset(a) == CoralLayerToPreset(b) ==> a == b
  {
  }

  /** Every scoring preset is reached by exactly the layer read off its name. */
  lemma CoralLayerToPresetOnto(p: Preset)
    requires p.IsScore()
    ensures CoralLayerToPreset(ScoreLayerOf(p).value) == p
  {
  }

  /** The algae mapping is a bijection between the two levels and the two
      extraction presets. */
  lemma AlgaeLayerToPresetBijective(p: Preset)
    requires p.IsAlgaeExtraction()
    ensures exists layer :: AlgaeLayerToPreset(layer) == p
    ensures AlgaeLayerToPreset(High) != AlgaeLayerToPreset(Low)
  {
    if p == ExtractAlgaeLow {
      assert AlgaeLayerToPreset(High) == p;
    } else {
      assert AlgaeLayerToPreset(Low) == p;
    }
  }
}
