/** `handler_formatter`: the wrapper every command handler runs inside. It
    hands the handler either the whole text or only the command's argument,
    answers "Text is required" instead of running a handler that needs text
    and got none, and turns anything the handler raises into one generic
    error reply. The handler itself is abstract here: a function from the
    text it is handed to what it did. */
module Gate {
  import opened Wrappers
  import opened Models
  import Text

  /** A handler body either completes, or raises after doing `before`. */
  datatype BodyOutcome =
    | Completed(actions: seq<Action>)
    | Threw(before: seq<Action>, error: Error)

  /** `handler_formatter(text=..., preserve=...)`. */
  datatype Flags = Flags(textRequired: bool, preserve: bool)

  /** What the wrapper did: the text it handed over, whether it ran the
      handler, and every action taken. */
  datatype GateRun = GateRun(argument: Option<string>, invoked: bool, actions: seq<Action>)

  /** Python's `not message.text`. */
  predicate Blank(a: Option<string>)
  {
    a.None? || a.value == ""
  }

  /** The text the handler is handed: the whole text when `preserve` is set,
      otherwise only the command's argument, which is strictly shorter. */
  function Argument(flags: Flags, text: Option<string>): (a: Option<string>)
    ensures flags.preserve ==> a == text
    ensures !flags.preserve ==> (a.Some? <==> Text.IsCommand(text))
    ensures !flags.preserve && a.Some? ==> |a.value| < |text.value|
  {
    if flags.preserve then text else Text.ExtractArguments(text)
  }

  /** The wrapped handler. */
  function Run(flags: Flags, text: Option<string>, body: Option<string> -> BodyOutcome): (r: GateRun)
    ensures r.argument == Argument(flags, text)
    ensures r.invoked <==> !(flags.textRequired && Blank(r.argument))
    ensures !r.invoked ==> r.actions == [Send(TextIsRequired)]
    ensures r.invoked && body(r.argument).Completed? ==> r.actions == body(r.argument).actions
    ensures r.invoked && body(r.argument).Threw? ==>
              r.actions == body(r.argument).before + [Send(GenericError)]
  {
    var arg := Argument(flags, text);
    if flags.textRequired && Blank(arg) then GateRun(arg, false, [Send(TextIsRequired)])
    else
      match body(arg)
      case Completed(acts) => GateRun(arg, true, acts)
      case Threw(before, _) => GateRun(arg, true, before + [Send(GenericError)])
  }

  /** Number of generic error replies among some actions. */
  function ErrorReplies(acts: seq<Action>): nat
  {
    if acts == [] then 0
    else (if acts[0] == Send(GenericError) then 1 else 0) + ErrorReplies(acts[1..])
  }

  lemma {:induction false} ErrorRepliesAppend(a: seq<Action>, b: seq<Action>)
    ensures ErrorReplies(a + b) == ErrorReplies(a) + ErrorReplies(b)
    decreases |a|
  {
    if a != [] {
      ErrorRepliesAppend(a[1..], b);
      assert (a + b)[1..] == a[1..] + b;
    } else {
      assert a + b == b;
    }
  }

  /** A handler that raises costs exactly one generic error reply on top of
      what it had already done, and that reply comes last. */
  lemma ThrowRepliedOnce(flags: Flags, text: Option<string>, body: Option<string> -> BodyOutcome)
    requires Run(flags, text, body).invoked && body(Argument(flags, text)).Threw?
    ensures var r := Run(flags, text, body);
            var before := body(Argument(flags, text)).before;
            ErrorReplies(r.actions) == ErrorReplies(before) + 1
            && r.actions[|r.actions| - 1] == Send(GenericError)
  {
    var before := body(Argument(flags, text)).before;
    ErrorRepliesAppend(before, [Send(GenericError)]);
    assert ErrorReplies([Send(GenericError)]) == 1;
  }

  /** A required text that is missing means one "Text is required" reply and
      no call of the handler, whatever the handler would have done. */
  lemma TextRequiredShortCircuit(flags: Flags, text: Option<string>,
                                 body1: Option<string> -> BodyOutcome, body2: Option<string> -> BodyOutcome)
    requires flags.textRequired && Blank(Argument(flags, text))
    ensures Run(flags, text, body1) == Run(flags, text, body2)
    ensures Run(flags, text, body1).actions == [Send(TextIsRequired)]
  {
  }
}
