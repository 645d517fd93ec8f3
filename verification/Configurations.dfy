/** The classes of configuration records, and the fields that each of them has. */
module Configurations {
  import opened Plan

  /** The device configurations that recovery keeps apart, one record class each. */
  datatype Key =
    | RigolKey(rigol: RigolChannel)
    | RigolOutputKey(rigol: RigolChannel)
    | KeithleyKey(smu: Smu)
    | SpectrumKey
    | AdvancedKey
    | SgKey

  /** The fields of each class of configuration record. */
  predicate HasField(key: Key, f: Field) {
    match key
    case KeithleyKey(_) =>
      || f.Mode? || f.LevelSi? || f.ComplianceSi? || f.Nplc? || f.SettleTimeS? || f.SenseMode?
      || f.SourceAutorange? || f.SourceRangeSi? || f.MeasureVoltageAutorange? || f.MeasureVoltageRangeSi?
      || f.MeasureCurrentAutorange? || f.MeasureCurrentRangeSi?
    case RigolKey(_) =>
      || f.Waveform? || f.FrequencyHz? || f.HighLevelV? || f.LowLevelV? || f.OutputLoad? || f.PhaseDeg?
      || f.SquareDutyPercent? || f.RampSymmetryPercent? || f.PulseWidthS? || f.PulseLeadingS? || f.PulseTrailingS?
    case RigolOutputKey(_) =>
      || f.OutputLoad? || f.Polarity? || f.OutputMode? || f.GatePolarity? || f.SyncEnabled? || f.SyncPolarity?
      || f.SyncDelayS?
    case SpectrumKey =>
      || f.StartHz? || f.StopHz? || f.ReferenceLevelDbm? || f.Points? || f.Trace? || f.RbwAuto? || f.RbwHz?
      || f.VbwAuto? || f.VbwMode? || f.VbwHz? || f.PrepareCurrentBuffer?
    case AdvancedKey =>
      || f.RbwAuto? || f.RbwHz? || f.VbwMode? || f.VbwHz? || f.Detector? || f.AttenuationAuto? || f.AttenuationDb?
      || f.PreamplifierEnabled? || f.SweepTimeAuto? || f.SweepTimeS? || f.VbwFilterMode?
    case SgKey => f.FrequencyHz? || f.PowerDbm?
  }

  /** A record has every field of its class and no other; a mask names fields of the class. */
  predicate RecordOf(c: Config, key: Key) {
    && (forall f :: f in c.values <==> HasField(key, f))
    && (c.mask.Some? ==> forall f | f in c.mask.value :: HasField(key, f))
    && (key.AdvancedKey? ==> c.mask.None?)
  }
}
