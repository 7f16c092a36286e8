/** The dialog component: its form state, the change handler of its inputs
    and its save handler. What the save handler does to the outside world
    (toasts, the create-credential request, the `onSaved` callback) is
    recorded as a log of events, in the order it happens. */
module ConfigModal {
  import opened FirecrawlConfig

  datatype ToastType = ErrorToast | SuccessToast

  /** A toast's text is a translation lookup; the model keeps its meaning. */
  datatype Message = Invalid(error: ValidationError) | SaveSuccess

  datatype Notice = Notice(kind: ToastType, message: Message)

  datatype Event =
    | Toast(notice: Notice)         // Toast.notify
    | CreateApiKey(payload: Payload) // the create-credential request
    | OnSaved                       // the caller's completion callback

  /** The requests sent to the credential service, in order. */
  function Submissions(es: seq<Event>): seq<Payload>
  {
    if es == [] then []
    else (if es[0].CreateApiKey? then [es[0].payload] else []) + Submissions(es[1..])
  }

  /** The toasts shown, in order. */
  function Notifications(es: seq<Event>): seq<Notice>
  {
    if es == [] then []
    else (if es[0].Toast? then [es[0].notice] else []) + Notifications(es[1..])
  }

  /** How often `onSaved` was called. */
  function CallbackCount(es: seq<Event>): nat
  {
    if es == [] then 0
    else (if es[0] == OnSaved then 1 else 0) + CallbackCount(es[1..])
  }

  lemma {:induction false} SubmissionsAppend(a: seq<Event>, b: seq<Event>)
    ensures Submissions(a + b) == Submissions(a) + Submissions(b)
  {
    if a == [] {
      assert a + b == b;
    } else {
      var h := if a[0].CreateApiKey? then [a[0].payload] else [];
      assert (a + b)[0] == a[0] && (a + b)[1..] == a[1..] + b;
      calc {
        Submissions(a + b);
        h + Submissions(a[1..] + b);
        { SubmissionsAppend(a[1..], b); }
        h + (Submissions(a[1..]) + Submissions(b));
        (h + Submissions(a[1..])) + Submissions(b);
      }
    }
  }

  lemma {:induction false} NotificationsAppend(a: seq<Event>, b: seq<Event>)
    ensures Notifications(a + b) == Notifications(a) + Notifications(b)
  {
    if a == [] {
      assert a + b == b;
    } else {
      var h := if a[0].Toast? then [a[0].notice] else [];
      assert (a + b)[0] == a[0] && (a + b)[1..] == a[1..] + b;
      calc {
        Notifications(a + b);
        h + Notifications(a[1..] + b);
        { NotificationsAppend(a[1..], b); }
        h + (Notifications(a[1..]) + Notifications(b));
        (h + Notifications(a[1..])) + Notifications(b);
      }
    }
  }

  lemma {:induction false} CallbackCountAppend(a: seq<Event>, b: seq<Event>)
    ensures CallbackCount(a + b) == CallbackCount(a) + CallbackCount(b)
  {
    if a == [] {
      assert a + b == b;
    } else {
      assert (a + b)[1..] == a[1..] + b;
      CallbackCountAppend(a[1..], b);
    }
  }

  /** The events of one click on "save" with the form holding `c`. */
  function SaveEffects(c: Config): (es: seq<Event>)
    // refused: one error toast naming the failed check, no request, no callback
    ensures Validate(c).Some? ==>
              && Submissions(es) == []
              && Notifications(es) == [Notice(ErrorToast, Invalid(Validate(c).value))]
              && CallbackCount(es) == 0
    // accepted: one request with the built payload, one success toast, one callback
    ensures Validate(c).None? ==>
              && Submissions(es) == [BuildPayload(c)]
              && Notifications(es) == [Notice(SuccessToast, SaveSuccess)]
              && CallbackCount(es) == 1
    // ... the request first and the callback last
    ensures Validate(c).None? ==> es[0] == CreateApiKey(BuildPayload(c)) && es[|es| - 1] == OnSaved
  {
    match Validate(c)
    case Some(e) =>
      var es := [Toast(Notice(ErrorToast, Invalid(e)))];
      assert es[1..] == [];
      es
    case None =>
      var tail := [Toast(Notice(SuccessToast, SaveSuccess)), OnSaved];
      var es := [CreateApiKey(BuildPayload(c))] + tail;
      assert es[1..] == tail && tail[1..] == [OnSaved] && [OnSaved][1..] == [];
      es
  }

  /** What holds of the log at every moment: every request sent carried an
      acceptable payload, and `onSaved` was called once per request. */
  predicate LogInvariant(es: seq<Event>)
  {
    && (forall p :: p in Submissions(es) ==> Accepted(p))
    && CallbackCount(es) == |Submissions(es)|
  }

  /** Any number of saves, valid or not, keep the log invariant. */
  lemma SaveKeepsLogInvariant(es: seq<Event>, c: Config)
    requires LogInvariant(es)
    ensures LogInvariant(es + SaveEffects(c))
  {
    SubmissionsAppend(es, SaveEffects(c));
    CallbackCountAppend(es, SaveEffects(c));
    if Validate(c).None? {
      ValidExactlyWhenPayloadAccepted(c);
    }
  }

  class Modal {
    var config: Config
    ghost var events: seq<Event>

    ghost predicate Valid()
      reads this
    {
      LogInvariant(events)
    }

    /** The dialog opens with both fields empty and nothing sent. */
    constructor ()
      ensures Valid()
      ensures config == EmptyConfig && events == []
    {
      config := EmptyConfig;
      events := [];
    }

    /** An input changed: only that field of the form takes the new value. */
    method Change(field: Field, value: string)
      requires Valid()
      modifies this
      ensures Valid()
      ensures config == WithField(old(config), field, value)
      ensures events == old(events)
    {
      config := WithField(config, field, value);
    }

    /** The save button: the checks run one after another, keeping the
        first failure; a failure is shown and ends the save, otherwise the
        request is sent, success is shown and the caller is told. */
    method Save()
      requires Valid()
      modifies this
      ensures Valid()
      ensures config == old(config)
      ensures events == old(events) + SaveEffects(old(config))
    {
      ghost var before := events;
      var errorMsg: Option<ValidationError> := None;
      if config.base_url != "" && !HasHttpScheme(config.base_url) {
        errorMsg := Some(UrlError);
      }
      if errorMsg == None {
        if config.api_key == "" {
          errorMsg := Some(FieldRequired(ApiKeyLabel));
        } else if !StartsWith(config.api_key, ApiKeyPrefix) {
          errorMsg := Some(ApiKeyFormatError);
        }
      }
      SaveKeepsLogInvariant(before, config);

      assert errorMsg == Validate(config);
      if errorMsg.Some? {
        events := events + [Toast(Notice(ErrorToast, Invalid(errorMsg.value)))];
        return;
      }
      var postData := BuildPayload(config);
      events := events + [CreateApiKey(postData)];
      events := events + [Toast(Notice(SuccessToast, SaveSuccess))];
      events := events + [OnSaved];
      assert events == before + SaveEffects(config);
    }
  }
}
