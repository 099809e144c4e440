/** The client's AI store of client/src/features/ai/aiSlice.js: five result
    slots and the shared request flags, updated in place by the reducers and
    by the pending/fulfilled/rejected cases of the seven request thunks. */
module AiSlice {
  import opened JsValue

  /** The seven request thunks. */
  datatype Thunk =
    | GetAISuggestion | ImproveTask | BreakdownTask | ParseBrainDump
    | GetEnergySuggestions | DoItForMe | GetDailyReflection

  /** The five result slots. */
  datatype Slot = SuggestionSlot | BrainDumpSlot | EnergySlot | DoItForMeSlot | ReflectionSlot

  /** Where a thunk's fulfilled payload is stored; the first three share one slot. */
  function SlotOf(t: Thunk): (s: Slot)
    ensures s == SuggestionSlot <==> t == GetAISuggestion || t == ImproveTask || t == BreakdownTask
  {
    match t
    case GetAISuggestion => SuggestionSlot
    case ImproveTask => SuggestionSlot
    case BreakdownTask => SuggestionSlot
    case ParseBrainDump => BrainDumpSlot
    case GetEnergySuggestions => EnergySlot
    case DoItForMe => DoItForMeSlot
    case GetDailyReflection => ReflectionSlot
  }

  /** Two different thunks store into the same slot only when both are
      among the three that share the suggestion slot: no other result is
      ever overwritten by another request's reply. */
  lemma {:induction false} SlotsApart(t1: Thunk, t2: Thunk)
    requires t1 != t2 && SlotOf(t1) == SlotOf(t2)
    ensures SlotOf(t1) == SuggestionSlot
    ensures t1 in {GetAISuggestion, ImproveTask, BreakdownTask} && t2 in {GetAISuggestion, ImproveTask, BreakdownTask}
  {
  }

  /** A copy of the whole slice state. */
  datatype Snapshot = Snapshot(
    suggestion: Json,
    brainDumpResult: Json,
    energySuggestions: Json,
    doItForMeResult: Json,
    dailyReflection: Json,
    isLoading: bool,
    isError: bool,
    isSuccess: bool,
    message: string)

  function InitialSnapshot(): Snapshot {
    Snapshot(JNull, JNull, JNull, JNull, JNull, false, false, false, "")
  }

  class AiState {
    var suggestion: Json
    var brainDumpResult: Json
    var energySuggestions: Json
    var doItForMeResult: Json
    var dailyReflection: Json
    var isLoading: bool
    var isError: bool
    var isSuccess: bool
    var message: string

    function State(): Snapshot
      reads this
    {
      Snapshot(suggestion, brainDumpResult, energySuggestions, doItForMeResult, dailyReflection,
               isLoading, isError, isSuccess, message)
    }

    function SlotValue(s: Slot): Json
      reads this
    {
      match s
      case SuggestionSlot => suggestion
      case BrainDumpSlot => brainDumpResult
      case EnergySlot => energySuggestions
      case DoItForMeSlot => doItForMeResult
      case ReflectionSlot => dailyReflection
    }

    constructor ()
      ensures State() == InitialSnapshot()
    {
      suggestion := JNull;
      brainDumpResult := JNull;
      energySuggestions := JNull;
      doItForMeResult := JNull;
      dailyReflection := JNull;
      isLoading := false;
      isError := false;
      isSuccess := false;
      message := "";
    }

    /** Any thunk's pending case: only `isLoading` is set. */
    method Pending(t: Thunk)
      modifies this
      ensures State() == old(State()).(isLoading := true)
    {
      isLoading := true;
    }

    /** A thunk's fulfilled case: its slot takes the payload. */
    method Fulfilled(t: Thunk, payload: Json)
      modifies this
      ensures SlotValue(SlotOf(t)) == payload
      ensures forall s :: s != SlotOf(t) ==> SlotValue(s) == old(SlotValue(s))
      ensures !isLoading && isSuccess
      ensures isError == old(isError) && message == old(message)
    {
      isLoading := false;
      isSuccess := true;
      match SlotOf(t)
      case SuggestionSlot => suggestion := payload;
      case BrainDumpSlot => brainDumpResult := payload;
      case EnergySlot => energySuggestions := payload;
      case DoItForMeSlot => doItForMeResult := payload;
      case ReflectionSlot => dailyReflection := payload;
    }

    /** A thunk's rejected case: the error flag and message; no slot changes. */
    method Rejected(t: Thunk, payload: string)
      modifies this
      ensures State() == old(State()).(isLoading := false, isError := true, message := payload)
      ensures forall s :: SlotValue(s) == old(SlotValue(s))
    {
      isLoading := false;
      isError := true;
      message := payload;
    }

    /** `clearSuggestion`: the suggestion slot, the flags and the message. */
    method ClearSuggestion()
      modifies this
      ensures State() == InitialSnapshot().(
        brainDumpResult := old(brainDumpResult), energySuggestions := old(energySuggestions),
        doItForMeResult := old(doItForMeResult), dailyReflection := old(dailyReflection))
    {
      suggestion := JNull;
      isLoading := false;
      isError := false;
      isSuccess := false;
      message := "";
    }

    /** `clearBrainDump`, `clearEnergySuggestions`, `clearDoItForMe` and
        `clearDailyReflection`: one slot is nulled. */
    method ClearSlot(s: Slot)
      requires s != SuggestionSlot
      modifies this
      ensures SlotValue(s) == JNull
      ensures forall other :: other != s ==> SlotValue(other) == old(SlotValue(other))
      ensures isLoading == old(isLoading) && isError == old(isError) && isSuccess == old(isSuccess)
      ensures message == old(message)
    {
      match s
      case BrainDumpSlot => brainDumpResult := JNull;
      case EnergySlot => energySuggestions := JNull;
      case DoItForMeSlot => doItForMeResult := JNull;
      case ReflectionSlot => dailyReflection := JNull;
    }

    /** `clearAll`: back to the initial state. */
    method ClearAll()
      modifies this
      ensures State() == InitialSnapshot()
    {
      suggestion := JNull;
      brainDumpResult := JNull;
      energySuggestions := JNull;
      doItForMeResult := JNull;
      dailyReflection := JNull;
      isLoading := false;
      isError := false;
      isSuccess := false;
      message := "";
    }
  }
}
