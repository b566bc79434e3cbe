/**
 * The process-wide UI atoms (src/state.ts): closed types for the phase, the
 * sub-step and the missing binary, and one registry object holding the six atoms.
 */
module State {

  datatype Phase = Welcome | Running | Done | Error | Install

  datatype Step = Idle | Tailscale | OpenCode | Publish

  /** `"" | "tailscale" | "opencode"` */
  datatype MissingBinary = NoBinary | MissingTailscale | MissingOpenCode

  /** The atom registry: every atom is a field that writers reassign. */
  class Registry {
    var phase: Phase
    var step: Step
    var log: string
    var url: string
    var error: string
    var missingBinary: MissingBinary

    /** Every atom starts at the initial value the source declares. */
    constructor ()
      ensures phase == Welcome && step == Idle
      ensures log == "" && url == "" && error == ""
      ensures missingBinary == NoBinary
    {
      phase := Welcome;
      step := Idle;
      log := "";
      url := "";
      error := "";
      missingBinary := NoBinary;
    }
  }
}
