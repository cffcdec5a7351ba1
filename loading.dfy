/**
 * The boot screen: a progress bar advanced by random increments on random
 * timers, and a typewriter that types seven boot messages one character at a
 * time and files each one into the message list once complete.
 */
module Loading {
  import opened Wrappers
  import opened Draw

  // ---------------------------------------------------------------------------
  // Progress

  const Complete: int := 100
  /** Milliseconds between reaching 100% and the completion callback. */
  const CompleteDelay: nat := 500

  /** `Math.floor(Math.random() * 10) + 5`: an increment from 5 to 14. */
  function Increment(r: Unit): (inc: int)
    ensures 5 <= inc <= 14
  {
    Below(r, 10) + 5
  }

  /** `Math.min(prev + increment, 100)`. */
  function NextProgress(prev: int, inc: int): int
  {
    if prev + inc < Complete then prev + inc else Complete
  }

  /** Below 100, an update moves progress up by at least 5 and never past 100. */
  lemma ProgressStep(prev: int, r: Unit)
    requires prev < Complete
    ensures prev + 5 <= NextProgress(prev, Increment(r)) || NextProgress(prev, Increment(r)) == Complete
    ensures prev < NextProgress(prev, Increment(r)) <= Complete
    ensures NextProgress(prev, Increment(r)) == Complete <==> prev + Increment(r) >= Complete
  {
  }

  /** What the progress effect schedules. */
  datatype Scheduled = NothingScheduled | ProgressTimer(delay: real) | CompletionTimer(after: nat)

  /**
   * One run of the progress effect: a progress update after 300 to 600 ms
   * while below 100; the completion callback after 500 ms once at 100 and a
   * callback is supplied; nothing when not loading.
   */
  function ProgressEffect(isLoading: bool, progress: int, hasCallback: bool, rdelay: Unit): (s: Scheduled)
    ensures s.ProgressTimer? <==> isLoading && progress < Complete
    ensures s.CompletionTimer? <==> isLoading && progress >= Complete && hasCallback
    ensures s.ProgressTimer? ==> 300.0 <= s.delay < 600.0
    ensures s.CompletionTimer? ==> s.after == CompleteDelay
  {
    if !isLoading then NothingScheduled
    else if progress < Complete then ProgressTimer(rdelay * 300.0 + 300.0)
    else if hasCallback then CompletionTimer(CompleteDelay)
    else NothingScheduled
  }

  /** Progress after the timers fire with the given draws; the effect stops rescheduling at 100. */
  function Run(progress: int, draws: seq<Unit>): int
    decreases |draws|
  {
    if draws == [] || progress >= Complete then progress
    else Run(NextProgress(progress, Increment(draws[0])), draws[1..])
  }

  /** Progress never decreases and never passes 100. */
  lemma {:induction false} RunBounded(progress: int, draws: seq<Unit>)
    requires progress <= Complete
    ensures progress <= Run(progress, draws) <= Complete
    decreases |draws|
  {
    if draws != [] && progress < Complete {
      ProgressStep(progress, draws[0]);
      RunBounded(NextProgress(progress, Increment(draws[0])), draws[1..]);
    }
  }

  /** Enough updates always reach 100: one per 5 points still missing. */
  lemma {:induction false} RunReachesComplete(progress: int, draws: seq<Unit>)
    requires progress <= Complete && |draws| * 5 >= Complete - progress
    ensures Run(progress, draws) == Complete
    decreases |draws|
  {
    if progress < Complete {
      ProgressStep(progress, draws[0]);
      RunReachesComplete(NextProgress(progress, Increment(draws[0])), draws[1..]);
    }
  }

  /** From 0%, twenty updates complete the bar whatever the draws. */
  lemma TwentyUpdatesSuffice(draws: seq<Unit>)
    requires |draws| >= 20
    ensures Run(0, draws) == Complete
  {
    RunReachesComplete(0, draws);
  }

  // ---------------------------------------------------------------------------
  // The typewriter

  const BootMessages: seq<string> := [
    "Initializing system components...",
    "Establishing neural link...",
    "Loading cybernetic enhancements...",
    "Bypassing security protocols...",
    "Optimizing visual interface...",
    "Calibrating neuralink connection...",
    "Rendering digital environment..."
  ]

  /** Milliseconds between two typed characters. */
  const TypeDelay: nat := 30
  /** Milliseconds between a completed message and the next one. */
  const MessageGap: nat := 300

  /** Steps needed to type and file the messages from index `j` on. */
  function CostFrom(j: nat): nat
    decreases |BootMessages| - j
  {
    if j >= |BootMessages| then 0 else |BootMessages[j]| + 1 + CostFrom(j + 1)
  }

  /** The typewriter's closure variables and the two pieces of React state it sets. */
  class BootTyper {
    var messageIndex: nat
    var charIndex: nat
    var messages: seq<string>
    var currentMessage: string

    /**
     * The filed messages are exactly the first `messageIndex` boot messages,
     * and the line being typed is a prefix of the next one.
     */
    ghost predicate Valid()
      reads this
    {
      messageIndex <= |BootMessages| &&
      messages == BootMessages[..messageIndex] &&
      (messageIndex < |BootMessages| ==>
        charIndex <= |BootMessages[messageIndex]| && currentMessage == BootMessages[messageIndex][..charIndex]) &&
      (messageIndex == |BootMessages| ==> charIndex == 0 && currentMessage == "")
    }

    /** Steps left before the typewriter stops. */
    ghost function Remaining(): nat
      reads this
      requires Valid()
    {
      if messageIndex == |BootMessages| then 0
      else |BootMessages[messageIndex]| - charIndex + 1 + CostFrom(messageIndex + 1)
    }

    /** The state when the effect starts. */
    constructor ()
      ensures Valid() && messageIndex == 0 && charIndex == 0 && messages == [] && currentMessage == ""
      ensures Remaining() == CostFrom(0)
    {
      messageIndex := 0;
      charIndex := 0;
      messages := [];
      currentMessage := "";
    }

    /**
     * One call of `typeMessage`. Returns the delay of the timeout it schedules
     * for the next call, if any.
     */
    method TypeStep() returns (next: Option<nat>)
      requires Valid()
      modifies this
      ensures Valid()
      ensures old(messageIndex) >= |BootMessages| ==> next == None && unchanged(this)
      ensures old(messageIndex) < |BootMessages| ==> Remaining() + 1 == old(Remaining())
      ensures next == None <==> messageIndex == |BootMessages|
      ensures old(messageIndex) < |BootMessages| && old(charIndex) < |BootMessages[old(messageIndex)]| ==>
                next == Some(TypeDelay) && messageIndex == old(messageIndex) && messages == old(messages) &&
                charIndex == old(charIndex) + 1 && currentMessage == BootMessages[messageIndex][..charIndex]
      ensures old(messageIndex) < |BootMessages| && old(charIndex) == |BootMessages[old(messageIndex)]| ==>
                messages == old(messages) + [BootMessages[old(messageIndex)]] && currentMessage == "" &&
                messageIndex == old(messageIndex) + 1 && charIndex == 0 &&
                (next == Some(MessageGap) <==> messageIndex < |BootMessages|)
    {
      if messageIndex >= |BootMessages| {
        return None;
      }
      var message := BootMessages[messageIndex];
      if charIndex < |message| {
        currentMessage := message[..charIndex + 1];
        charIndex := charIndex + 1;
        next := Some(TypeDelay);
      } else {
        messages := messages + [message];
        assert messages == BootMessages[..messageIndex + 1];
        currentMessage := "";
        messageIndex := messageIndex + 1;
        charIndex := 0;
        if messageIndex < |BootMessages| {
          next := Some(MessageGap);
        } else {
          next := None;
        }
      }
    }

    /** The whole timeout chain: typing until no further call is scheduled. */
    method Boot()
      requires Valid()
      modifies this
      ensures Valid()
      ensures messages == BootMessages && currentMessage == "" && messageIndex == |BootMessages|
    {
      var next := TypeStep();
      while next.Some?
        invariant Valid()
        invariant next == None <==> messageIndex == |BootMessages|
        decreases Remaining()
      {
        next := TypeStep();
      }
    }
  }

  /**
   * Starting the typewriter effect on a typer fresh from the effect's closure
   * (both indices 0): it types only while the screen is loading, and then shows
   * the first character of the first message and schedules the next call.
   */
  method StartTyping(isLoading: bool, typer: BootTyper) returns (next: Option<nat>)
    requires typer.Valid() && typer.messageIndex == 0 && typer.charIndex == 0
    modifies typer
    ensures typer.Valid()
    ensures !isLoading ==> next == None && unchanged(typer)
    ensures isLoading ==>
              next == Some(TypeDelay) && typer.messages == [] && typer.messageIndex == 0 &&
              typer.charIndex == 1 && typer.currentMessage == BootMessages[0][..1] &&
              typer.Remaining() + 1 == CostFrom(0)
  {
    next := None;
    if isLoading {
      next := typer.TypeStep();
    }
  }
}
