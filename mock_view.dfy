/** MockView: the view a view state renders during a test. It never writes
    a page; on a user event it binds the request parameters onto the
    view's model, records binding errors as error messages, optionally
    validates, and offers the event to the flow unless errors were recorded. */
module View {
  import opened Common
  import opened Engine

  /** The attributes of the transition matching the event: the `bind` and
      `validate` flags, each absent or a boolean. */
  datatype Transition = Transition(bind: Option<bool>, validate: Option<bool>)

  /** What evaluating the view state's `model` attribute gives: no such
      attribute, a value (possibly null), or an evaluation exception. */
  datatype ModelLookup = NoModelAttribute | Evaluates(value: Option<Obj>) | EvaluationFails

  /** One mapping result of the data binder: whether it is an error, its
      error code (possibly null) and the target expression of its mapping. */
  datatype MappingResult = MappingResult(isError: bool, code: Option<string>, field: string)

  /** One parameter-to-property mapping: source parameter and target
      expression. */
  datatype Mapping = Mapping(parameter: string, target: string)

  const PropertyNotFound := "propertyNotFound"

  /** The message of the IllegalArgumentException Spring's Event
      constructor throws for a null or blank event id. */
  const EventIdRequired := "The event id is required: please set this event's id to a non-blank string identifier"

  /** Character.isWhitespace: the Unicode space, line and paragraph
      separators except the non-breaking ones, and the ASCII controls
      HT, LF, VT, FF, CR and FS to US. */
  predicate JavaWhitespace(c: char)
  {
    || c == ' ' || c == '\U{1680}' || ('\U{2000}' <= c <= '\U{200A}' && c != '\U{2007}')
    || c == '\U{2028}' || c == '\U{2029}' || c == '\U{205F}' || c == '\U{3000}'
    || ('\t' <= c <= '\r') || ('\U{001C}' <= c <= '\U{001F}')
  }

  /** StringUtils.hasText: some character is not whitespace. */
  function HasText(s: string): (r: bool)
    ensures r <==> exists i :: 0 <= i < |s| && !JavaWhitespace(s[i])
    ensures r ==> s != []
  {
    if s == [] then false else !JavaWhitespace(s[0]) || HasText(s[1..])
  }

  /** The request carries an event id parameter, whatever its value. */
  predicate HasEventIdParameter(parameters: map<string, ParamValue>)
  {
    EventIdParameter in parameters
  }

  /** The single-valued reading of a request parameter (ParameterMap.get):
      a string, the first of a string array, nothing for an empty array;
      a file is not a string and the parameter map throws. */
  function FirstValue(v: ParamValue): (r: Result<Option<string>>)
    ensures r.Err? <==> v.Upload?
    ensures r.Err? ==> r.error == EngineFailure
    ensures v.Text? ==> r == Ok(Some(v.text))
    ensures v.Texts? ==> r.Ok? && (r.value.Some? <==> v.texts != []) && (r.value.Some? ==> r.value.value == v.texts[0])
  {
    match v
    case Text(t) => Ok(Some(t))
    case Texts(ts) => if ts == [] then Ok(None) else Ok(Some(ts[0]))
    case Upload(_) => Err(EngineFailure)
  }

  /** getEventId: the `_eventId` request parameter, or null; a file
      under `_eventId` makes the read throw. */
  function EventId(parameters: map<string, ParamValue>): (r: Result<Option<string>>)
    ensures r.Err? <==> HasEventIdParameter(parameters) && parameters[EventIdParameter].Upload?
    ensures !HasEventIdParameter(parameters) ==> r == Ok(None)
    ensures r.Ok? && r.value.Some? ==> HasEventIdParameter(parameters)
  {
    if EventIdParameter in parameters then FirstValue(parameters[EventIdParameter]) else Ok(None)
  }

  /** getModelObject: the model value; null when there is no model
      attribute, it evaluates to null, or evaluation fails. */
  function ModelObject(lookup: ModelLookup): (r: Option<Obj>)
    ensures r.Some? <==> lookup.Evaluates? && lookup.value.Some?
  {
    if lookup.Evaluates? then lookup.value else None
  }

  /** shouldBind: without a matching transition, or with its `bind` flag
      true or absent. */
  function ShouldBind(transition: Option<Transition>): (r: bool)
    ensures r <==> !(transition.Some? && transition.value.bind == Some(false))
  {
    transition.None? || (if transition.value.bind.Some? then transition.value.bind.value else true)
  }

  /** getValidationAttribute: the `validate` flag of the transition, or
      null without a transition. */
  function ValidationAttribute(transition: Option<Transition>): (r: Option<bool>)
    ensures transition.None? ==> r.None?
    ensures transition.Some? ==> r == transition.value.validate
  {
    if transition.Some? then transition.value.validate else None
  }

  /** shouldValidate: the validation attribute when present, else true;
      so validation is skipped exactly when a matching transition says
      validate=false. */
  function ShouldValidate(transition: Option<Transition>): (r: bool)
    ensures r <==> !(transition.Some? && transition.value.validate == Some(false))
  {
    var attribute := ValidationAttribute(transition);
    if attribute.Some? then attribute.value else true
  }

  /** isBindingError: an error whose code is not "propertyNotFound"; a
      null code counts as a binding error. */
  function IsBindingError(result: MappingResult): (r: bool)
    ensures r ==> result.isError
    ensures result.isError && result.code.None? ==> r
    ensures result.code == Some(PropertyNotFound) ==> !r
    ensures result.isError && result.code.Some? && result.code.value != PropertyNotFound ==> r
  {
    result.isError && result.code != Some(PropertyNotFound)
  }

  /** extractBindingErrors: the binding errors, in result order; a
      repeated result is kept as often as it occurs. */
  function BindingErrors(results: seq<MappingResult>): (errors: seq<MappingResult>)
    ensures |errors| <= |results|
    ensures forall e :: e in errors <==> e in results && IsBindingError(e)
    ensures forall e :: multiset(errors)[e] == if IsBindingError(e) then multiset(results)[e] else 0
  {
    if results == [] then []
    else
      assert results == [results[0]] + results[1..];
      if IsBindingError(results[0]) then [results[0]] + BindingErrors(results[1..])
      else BindingErrors(results[1..])
  }

  /** Filtering distributes over concatenation: the binding errors of
      earlier results come before those of later ones. */
  lemma {:induction false} BindingErrorsOfConcat(a: seq<MappingResult>, b: seq<MappingResult>)
    ensures BindingErrors(a + b) == BindingErrors(a) + BindingErrors(b)
  {
    if a == [] {
      assert a + b == b;
    } else {
      assert (a + b)[0] == a[0];
      assert (a + b)[1..] == a[1..] + b;
      BindingErrorsOfConcat(a[1..], b);
    }
  }

  /** Java's rendering of a nullable string in a concatenation. */
  function JavaText(s: Option<string>): string
  {
    if s.Some? then s.value else "null"
  }

  /** buildErrorMessage: an error message reading "<code> on <field>". */
  function ErrorMessage(result: MappingResult): (m: FlowMessage)
    ensures m.isError
    ensures m.text == JavaText(result.code) + " on " + result.field
  {
    FlowMessage(JavaText(result.code) + " on " + result.field, true)
  }

  /** addErrorMessages: one message per binding error, in order. */
  function ErrorMessages(errors: seq<MappingResult>): (ms: seq<FlowMessage>)
    ensures |ms| == |errors|
    ensures forall i :: 0 <= i < |errors| ==> ms[i] == ErrorMessage(errors[i])
  {
    if errors == [] then [] else [ErrorMessage(errors[0])] + ErrorMessages(errors[1..])
  }

  /** The messages processUserEvent adds: nothing without an event id or a
      model, or when binding is off; otherwise the binding errors'
      messages, then what validation reports if it runs. */
  function EventMessages(eventId: Option<string>, model: Option<Obj>, transition: Option<Transition>,
                         results: seq<MappingResult>, validation: seq<FlowMessage>): seq<FlowMessage>
  {
    if eventId.None? || model.None? || !ShouldBind(transition) then []
    else ErrorMessages(BindingErrors(results)) + (if ShouldValidate(transition) then validation else [])
  }

  /** Validation output is appended, after the binding errors, exactly
      on the bind path with validation on. */
  lemma ValidationOnlyAfterBinding(eventId: Option<string>, model: Option<Obj>, transition: Option<Transition>,
                                   results: seq<MappingResult>, validation: seq<FlowMessage>)
    ensures EventMessages(eventId, model, transition, results, validation)
         == EventMessages(eventId, model, transition, results, [])
            + (if eventId.Some? && model.Some? && ShouldBind(transition) && ShouldValidate(transition)
               then validation else [])
  {
    var errors := ErrorMessages(BindingErrors(results));
    assert errors + [] == errors;
  }

  /** Binding adds an error message exactly when some result is a binding
      error. */
  lemma BindingAddsErrorsIffBindingError(results: seq<MappingResult>)
    ensures HasErrorMessages(ErrorMessages(BindingErrors(results)))
        <==> exists r :: r in results && IsBindingError(r)
  {
    var errors := BindingErrors(results);
    var ms := ErrorMessages(errors);
    if r :| r in results && IsBindingError(r) {
      assert r in errors;
      var i :| 0 <= i < |errors| && errors[i] == r;
      assert ms[i] in ms && ms[i].isError;
    }
    if HasErrorMessages(ms) {
      var m :| m in ms && m.isError;
      var i :| 0 <= i < |ms| && ms[i] == m;
      assert errors[i] in errors;
    }
  }

  /** Every error message added names a binding error of the results. */
  lemma EventMessagesFromBindingErrors(eventId: Option<string>, model: Option<Obj>, transition: Option<Transition>,
                                       results: seq<MappingResult>)
    ensures forall m :: m in EventMessages(eventId, model, transition, results, []) ==>
              exists r :: r in results && IsBindingError(r) && m == ErrorMessage(r)
  {
    var errors := BindingErrors(results);
    forall m | m in EventMessages(eventId, model, transition, results, [])
      ensures exists r :: r in results && IsBindingError(r) && m == ErrorMessage(r)
    {
      var ms := ErrorMessages(errors);
      assert EventMessages(eventId, model, transition, results, []) == ms;
      var i :| 0 <= i < |ms| && ms[i] == m;
      assert errors[i] in errors;
    }
  }

  predicate HasErrorMessages(messages: seq<FlowMessage>)
  {
    exists m :: m in messages && m.isError
  }

  /** createDefaultMapper: one mapping per request parameter name, from
      the parameter to the model property of the same name. */
  method CreateDefaultMapper(parameterNames: set<string>) returns (mappings: seq<Mapping>)
    ensures |mappings| == |parameterNames|
    ensures forall m :: m in mappings <==> m.parameter in parameterNames && m.target == m.parameter
  {
    mappings := [];
    var pending := parameterNames;
    while pending != {}
      invariant pending <= parameterNames
      invariant |mappings| + |pending| == |parameterNames|
      invariant forall m :: m in mappings <==> m.parameter in parameterNames - pending && m.target == m.parameter
      decreases pending
    {
      var name :| name in pending;
      mappings := mappings + [Mapping(name, name)];
      pending := pending - {name};
    }
  }

  class MockView {
    const viewId: string
    /** The request parameters of the request the view handles. */
    const requestParameters: map<string, ParamValue>
    /** The request's message context. */
    var messages: seq<FlowMessage>
    var userEventProcessed: bool

    constructor (viewId: string, requestParameters: map<string, ParamValue>, messages: seq<FlowMessage>)
      ensures this.viewId == viewId && this.requestParameters == requestParameters
      ensures this.messages == messages && !userEventProcessed
    {
      this.viewId := viewId;
      this.requestParameters := requestParameters;
      this.messages := messages;
      userEventProcessed := false;
    }

    /** userEventQueued: the request carries an `_eventId` parameter; a
        queued event may still have no usable id. */
    function UserEventQueued(): (r: bool)
      reads this
      ensures r <==> HasEventIdParameter(requestParameters)
      ensures GetFlowEvent().Ok? ==> r
    {
      EventIdParameter in requestParameters
    }

    /** processUserEvent, given the model lookup, the transition matching
        each event id, what the data binder reports and what validation
        reports. */
    method ProcessUserEvent(model: ModelLookup, transitions: map<string, Transition>,
                            results: seq<MappingResult>, validation: seq<FlowMessage>)
      returns (r: Outcome)
      modifies this
      ensures r.Fail? <==> EventId(requestParameters).Err?
      ensures r.Fail? ==> r.error == EventId(requestParameters).error
                          && messages == old(messages) && userEventProcessed == old(userEventProcessed)
      ensures r == Pass ==>
                var eventId := EventId(requestParameters).value;
                var transition := if eventId.Some? && eventId.value in transitions
                                  then Some(transitions[eventId.value]) else None;
                && messages == old(messages) + EventMessages(eventId, ModelObject(model), transition, results, validation)
                && userEventProcessed == (old(userEventProcessed) || eventId.Some?)
    {
      var read := EventId(requestParameters);
      if read.Err? {
        return Fail(read.error);
      }
      var eventId := read.value;
      r := Pass;
      if eventId.None? {
        return;
      }
      var modelObject := ModelObject(model);
      var transition := if eventId.value in transitions then Some(transitions[eventId.value]) else None;
      var added: seq<FlowMessage> := [];
      if modelObject.Some? && ShouldBind(transition) {
        var errors := BindingErrors(results);
        if errors != [] {
          added := ErrorMessages(errors);
        }
        if ShouldValidate(transition) {
          added := added + validation;
        }
      }
      assert added == EventMessages(eventId, modelObject, transition, results, validation);
      messages := messages + added;
      userEventProcessed := true;
    }

    /** hasFlowEvent: the event was processed and no error was recorded. */
    function HasFlowEvent(): (r: bool)
      reads this
      ensures r <==> userEventProcessed && !HasErrorMessages(messages)
    {
      userEventProcessed && !exists m :: m in messages && m.isError
    }

    /** getFlowEvent: an event carrying the `_eventId` parameter value;
        the Event constructor refuses a null or blank id. */
    function GetFlowEvent(): (r: Result<string>)
      reads this
      ensures r.Ok? <==> EventId(requestParameters).Ok? && EventId(requestParameters).value.Some?
                         && HasText(EventId(requestParameters).value.value)
      ensures r.Ok? ==> EventId(requestParameters) == Ok(Some(r.value))
      ensures EventId(requestParameters).Err? ==> r == Err(EventId(requestParameters).error)
      ensures EventId(requestParameters).Ok? && r.Err? ==> r == Err(IllegalArgument(EventIdRequired))
    {
      var read := EventId(requestParameters);
      if read.Err? then Err(read.error)
      else if read.value.None? || !HasText(read.value.value) then Err(IllegalArgument(EventIdRequired))
      else Ok(read.value.value)
    }
  }

  /** Without an event id nothing is processed and there is no flow event. */
  method NoEventIdNoFlowEvent(viewId: string, model: ModelLookup, transitions: map<string, Transition>,
                              results: seq<MappingResult>, validation: seq<FlowMessage>)
    returns (processed: bool, event: bool)
    ensures !processed && !event
  {
    var view := new MockView(viewId, map[], []);
    var _ := view.ProcessUserEvent(model, transitions, results, validation);
    processed := view.userEventProcessed;
    event := view.HasFlowEvent();
  }

  /** A model that cannot be evaluated skips binding, yet the event is
      processed and offered to the flow. */
  method UnevaluableModelStillProcessed(viewId: string, eventId: string, transitions: map<string, Transition>,
                                        results: seq<MappingResult>, validation: seq<FlowMessage>)
    returns (event: bool, messages: seq<FlowMessage>)
    ensures event && messages == []
  {
    var view := new MockView(viewId, map[EventIdParameter := Text(eventId)], []);
    var _ := view.ProcessUserEvent(EvaluationFails, transitions, results, validation);
    event := view.HasFlowEvent();
    messages := view.messages;
  }

  /** A type-conversion error blocks the event; a missing property does not. */
  method BindingErrorBlocksEvent(viewId: string, eventId: string, model: Obj, field: string, code: string)
    returns (event: bool, messages: seq<FlowMessage>)
    ensures event <==> code == PropertyNotFound
    ensures code != PropertyNotFound ==> messages == [FlowMessage(code + " on " + field, true)]
  {
    var view := new MockView(viewId, map[EventIdParameter := Text(eventId)], []);
    var _ := view.ProcessUserEvent(Evaluates(Some(model)), map[], [MappingResult(true, Some(code), field)], []);
    event := view.HasFlowEvent();
    messages := view.messages;
    if code != PropertyNotFound {
      assert messages[0] in messages;
    }
  }

  /** A blank event id is processed and, with no errors, reported as a
      flow event, yet building that event throws. */
  method BlankEventIdCannotBeOffered(viewId: string, model: ModelLookup)
    returns (processed: Outcome, event: bool, offered: Result<string>)
    ensures processed == Pass && event
    ensures offered == Err(IllegalArgument(EventIdRequired))
  {
    var view := new MockView(viewId, map[EventIdParameter := Text(" ")], []);
    processed := view.ProcessUserEvent(model, map[], [], []);
    event := view.HasFlowEvent();
    offered := view.GetFlowEvent();
  }

  /** A file under `_eventId` makes processUserEvent throw before anything
      changes, although the event counts as queued. */
  method FileEventIdThrows(viewId: string, file: Obj, model: ModelLookup)
    returns (queued: bool, processed: Outcome, event: bool)
    ensures queued && processed == Fail(EngineFailure) && !event
  {
    var view := new MockView(viewId, map[EventIdParameter := Upload(file)], []);
    queued := view.UserEventQueued();
    processed := view.ProcessUserEvent(model, map[], [], []);
    event := view.HasFlowEvent();
  }
}
