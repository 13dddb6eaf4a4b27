/** The interactive wizard: a five-state machine whose handlers read one
    typed line at a time and drive the board's setters.  A handler takes the
    current state, the board and the popped input line, and returns the next
    state; the prompt text is abstracted to one constructor per message. */
module States {
  import opened Common
  import opened Soc
  import opened HexInput

  datatype StateId = Init | SelectAperature | WaitForInput | SelectOperation | Exit

  /** The messages a state can show, in place of their formatted text. */
  datatype Prompt =
    | PressEnterToBegin
    | EnterTotalMemory
    | EnterApertureId
    | SetStartAddressFor(description: string)
    | InvalidSystemMemory(raw: string)
    | InvalidApertureId

  datatype State = State(stateId: StateId, previousStateId: StateId, commandText: Prompt)

  /** `State::default`. */
  const DEFAULT_STATE: State := State(Init, Exit, PressEnterToBegin)

  /** The total that `init_handler` installs. */
  const INIT_TOTAL_SYSTEM_MEMORY: u64 := 0x8000_0000

  /** Nothing on the board changed. */
  twostate predicate BoardUnchanged(board: MPFS)
    reads board, board.memoryApertures
  {
    && board.totalSystemMemory == old(board.totalSystemMemory)
    && board.currentApertureId == old(board.currentApertureId)
    && board.HardwareAddrs() == old(board.HardwareAddrs())
  }

  /** The effect of `init_handler`: the total is reset, nothing else on the
      board changes, and the wizard waits for the total to be typed. */
  twostate predicate InitHandled(board: MPFS, current: State, next: State)
    reads board, board.memoryApertures
  {
    && board.Valid()
    && board.totalSystemMemory == INIT_TOTAL_SYSTEM_MEMORY
    && board.currentApertureId == old(board.currentApertureId)
    && board.HardwareAddrs() == old(board.HardwareAddrs())
    && next == State(WaitForInput, current.stateId, EnterTotalMemory)
  }

  method InitHandler(current: State, board: MPFS, input: Option<string>) returns (next: State)
    requires board.Valid()
    modifies board
    ensures InitHandled(board, current, next)
  {
    board.totalSystemMemory := INIT_TOTAL_SYSTEM_MEMORY;
    return State(WaitForInput, current.stateId, EnterTotalMemory);
  }

  /** `select_aperature_handler`: waits for an aperture id, remembering
      that it came from here.  It does not touch the board. */
  function SelectAperatureHandler(current: State, input: Option<string>): (next: State)
    ensures next.stateId == WaitForInput && next.previousStateId == current.stateId
    ensures next.commandText == EnterApertureId
  {
    State(WaitForInput, current.stateId, EnterApertureId)
  }

  /** `select_operation_handler`: waits for a start address for the selected
      aperture.  It needs a selection (the source unwraps it). */
  function SelectOperationHandler(current: State, board: MPFS, input: Option<string>): (next: State)
    reads board
    requires board.Valid() && board.currentApertureId.Some?
    ensures next.stateId == WaitForInput && next.previousStateId == current.stateId
    ensures next.commandText == SetStartAddressFor(board.memoryApertures[board.currentApertureId.value].description)
  {
    var id := board.currentApertureId.value;
    State(WaitForInput, current.stateId, SetStartAddressFor(board.memoryApertures[id].description))
  }

  /** The one way `wait_for_input_handler` can fail: an address typed after
      SelectOperation is applied to the selected aperture, which must exist. */
  predicate SelectionPresentWhenNeeded(current: State, board: MPFS, input: Option<string>)
    reads board
  {
    (current.previousStateId == SelectOperation && input.Some? && ParseUserHex(input.value).Some?)
    ==> board.currentApertureId.Some?
  }

  /** The effect of `wait_for_input_handler`, branch by branch.  With no
      input, or after a state that reads no input, it keeps waiting.  After
      Init it takes the typed total; after SelectAperature a typed aperture
      id; after SelectOperation a typed start address for the selected
      aperture, applied through the validated setter. */
  twostate predicate WaitForInputHandled(board: MPFS, current: State, input: Option<string>, next: State)
    reads board, board.memoryApertures
  {
    var waiting := State(WaitForInput, current.previousStateId, current.commandText);
    && board.Valid()
    && if input.None? then
         next == waiting && BoardUnchanged(board)
       else if current.previousStateId == Init then
         match ParseUserHex(input.value)
         case None =>
           next == waiting.(commandText := InvalidSystemMemory(input.value)) && BoardUnchanged(board)
         case Some(memory) =>
           && next == waiting.(stateId := SelectAperature)
           && board.totalSystemMemory == memory
           && board.currentApertureId == old(board.currentApertureId)
           && board.HardwareAddrs() == old(board.HardwareAddrs())
       else if current.previousStateId == SelectAperature then
         match ParseUserHex(input.value)
         case None =>
           next == waiting.(stateId := SelectOperation) && BoardUnchanged(board)
         case Some(id) =>
           if id >= |board.memoryApertures| then
             next == waiting.(stateId := SelectAperature, commandText := InvalidApertureId) && BoardUnchanged(board)
           else
             && next == waiting.(stateId := SelectOperation)
             && board.currentApertureId == Some(id)
             && board.totalSystemMemory == old(board.totalSystemMemory)
             && board.HardwareAddrs() == old(board.HardwareAddrs())
       else if current.previousStateId == SelectOperation then
         match ParseUserHex(input.value)
         case None =>
           next == waiting.(stateId := SelectOperation) && BoardUnchanged(board)
         case Some(addr) =>
           && old(board.currentApertureId).Some?
           && if addr < board.totalSystemMemory then
                && next == waiting.(stateId := SelectAperature)
                && board.totalSystemMemory == old(board.totalSystemMemory)
                && board.currentApertureId == old(board.currentApertureId)
                && board.HardwareAddrs() == old(board.HardwareAddrs())[old(board.currentApertureId).value := addr]
              else
                next == waiting.(stateId := current.stateId, previousStateId := SelectOperation) && BoardUnchanged(board)
       else
         next == waiting && BoardUnchanged(board)
  }

  method WaitForInputHandler(current: State, board: MPFS, input: Option<string>) returns (next: State)
    requires board.Valid()
    requires SelectionPresentWhenNeeded(current, board, input)
    modifies board, board.memoryApertures
    ensures WaitForInputHandled(board, current, input, next)
  {
    next := State(WaitForInput, current.previousStateId, current.commandText);

    if input.None? {
      return next;
    }

    if current.previousStateId == Init {
      var memoryRaw := input.value;
      var memory := ParseUserHex(memoryRaw);
      if memory.None? {
        next := next.(commandText := InvalidSystemMemory(memoryRaw), stateId := WaitForInput);
        return next;
      }
      board.totalSystemMemory := memory.value;
      next := next.(stateId := SelectAperature);
      return next;
    }

    if current.previousStateId == SelectAperature {
      var apertureId := ParseUserHex(input.value);
      if apertureId.None? {
        next := next.(stateId := SelectOperation);
        return next;
      }
      var id := apertureId.value;
      if id >= |board.memoryApertures| {
        next := next.(stateId := SelectAperature, commandText := InvalidApertureId);
        return next;
      }
      board.currentApertureId := Some(id);
      next := next.(stateId := SelectOperation);
      return next;
    }

    if current.previousStateId == SelectOperation {
      var addr := ParseUserHex(input.value);
      if addr.None? {
        next := next.(stateId := SelectOperation);
        return next;
      }
      var currentApertureId := board.currentApertureId.value;
      var r := board.SetHwStartAddrById(addr.value, currentApertureId);
      if r.Err? {
        next := next.(stateId := current.stateId, previousStateId := SelectOperation);
        return next;
      }
      next := next.(stateId := SelectAperature);
      return next;
    }

    return next;
  }

  /** `input.pop()`: the last line, if any. */
  function Popped(input: seq<string>): (line: Option<string>)
    ensures line.None? <==> input == []
    ensures line.Some? ==> line.value == input[|input| - 1]
  {
    if input == [] then None else Some(input[|input| - 1])
  }

  /** `get_next_state`: runs the handler of the current state on the last
      typed line and empties the input (returned as `inputAfter`).  The Exit
      state's handler ends the process; the model returns no state for it. */
  method GetNextState(current: State, board: MPFS, input: seq<string>)
    returns (next: Option<State>, inputAfter: seq<string>)
    requires board.Valid()
    requires current.stateId == SelectOperation ==> board.currentApertureId.Some?
    requires current.stateId == WaitForInput ==> SelectionPresentWhenNeeded(current, board, Popped(input))
    modifies board, board.memoryApertures
    ensures board.Valid() && inputAfter == []
    ensures next.None? <==> current.stateId == Exit
    ensures current.stateId == Init ==> InitHandled(board, current, next.value)
    ensures current.stateId == SelectAperature ==>
      next == Some(SelectAperatureHandler(current, Popped(input))) && BoardUnchanged(board)
    ensures current.stateId == WaitForInput ==> WaitForInputHandled(board, current, Popped(input), next.value)
    ensures current.stateId == SelectOperation ==>
      BoardUnchanged(board) && next == Some(SelectOperationHandler(current, board, Popped(input)))
    ensures current.stateId == Exit ==> BoardUnchanged(board)
  {
    var line := Popped(input);
    inputAfter := [];
    match current.stateId
    case Init =>
      var s := InitHandler(current, board, line);
      next := Some(s);
    case SelectAperature =>
      next := Some(SelectAperatureHandler(current, line));
    case WaitForInput =>
      var s := WaitForInputHandler(current, board, line);
      next := Some(s);
    case SelectOperation =>
      next := Some(SelectOperationHandler(current, board, line));
    case Exit =>
      next := None;
  }

  /** How the two lines typed in the runs below are read. */
  lemma OneAndG()
    ensures ParseUserHex("1") == Some(1) && ParseUserHex("g") == None
  {
    assert TrimHexPrefixes("1") == "1" && TrimHexPrefixes("g") == "g";
    assert Unsigned("1") == "1" && HexValue("1") == 1;
    assert !IsHexDigit("g"[0]);
  }

  /** A mistyped aperture id moves the wizard on to SelectOperation with no
      aperture selected, so the next step (`select_operation_handler`)
      would unwrap an empty selection: from the default board and state,
      Enter, total "1", Enter, aperture id "g". */
  method MistypedApertureIdLeavesNoSelection() returns (s: State, selection: Option<nat>)
    ensures s.stateId == SelectOperation && selection.None?
  {
    var board := new MPFS();
    var next, rest := GetNextState(DEFAULT_STATE, board, []);
    assert next.value == State(WaitForInput, Init, EnterTotalMemory);
    OneAndG();
    next, rest := GetNextState(next.value, board, ["1"]);
    assert next.value == State(SelectAperature, Init, EnterTotalMemory);
    next, rest := GetNextState(next.value, board, []);
    assert next.value == State(WaitForInput, SelectAperature, EnterApertureId);
    next, rest := GetNextState(next.value, board, ["g"]);
    return next.value, board.currentApertureId;
  }

  /** The total can be set below an aperture's start: after typing total
      "1", the default start of `seg0_1` (0x200_0000) is reported as out of
      range, so a start address is not kept within the installed memory. */
  method ShrinkingTotalInvalidatesDefaultStart() returns (r: Result<u64, SegError>)
    ensures r.Err?
  {
    var board := new MPFS();
    var next, rest := GetNextState(DEFAULT_STATE, board, []);
    OneAndG();
    next, rest := GetNextState(next.value, board, ["1"]);
    r := board.GetHwStartAddrById(board.totalSystemMemory, 0);
  }
}
