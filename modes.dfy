/** Game modes: a four-valued state, Survival at start, overwritten by every switch. */
module Modes {

  datatype GameMode = Survival | Creative | Adventure | Spectator

  /** Holds the game's current mode. */
  class ModeState {
    var currentMode: GameMode

    constructor ()
      ensures currentMode == Survival
    {
      currentMode := Survival;
    }

    /** Any mode may follow any mode, itself included. */
    method SwitchMode(mode: GameMode)
      modifies this
      ensures currentMode == mode
    {
      currentMode := mode;
    }
  }
}
