/** The protocol's message model: requests, responses and notifications with
    their string-keyed parameter tables, and the exceptions shared by client
    and server (lib/open_ruby_rmk/common). The action classes and the
    UnknownParameter exception refer to each other, so they share one module,
    as they share one Ruby namespace. */
module Common {
  import opened Ruby

  /** The statuses after which a request is no longer running. */
  predicate Terminal(status: string) {
    status == "ok" || status == "finished"
  }

  /** The two-level parameter read shared by all three action kinds: an
      explicit value first, else a registered default, else nothing. */
  function Lookup(parameters: map<string, string>, defaults: map<string, string>, key: string): (r: Option<string>)
    ensures r == (if key in defaults + parameters then Some((defaults + parameters)[key]) else None)
  {
    if key in parameters then Some(parameters[key])
    else if key in defaults then Some(defaults[key])
    else None
  }

  /** The object handed to `eql?` or to `UnknownParameter.new`: one of the
      three action kinds, nil, or some other object, described by the `id`
      and `type` it answers to (none of them answers to `request`). */
  datatype Obj =
    | RequestObj(request: Request)
    | ResponseObj(response: Response)
    | NotificationObj(notification: Notification)
    | NilObj
    | OtherObj(id: Option<int>, typeName: Option<string>)

  /** What `other.id` yields, or None when `other` does not respond to `id`. */
  function IdOf(o: Obj): Option<int> {
    match o
    case RequestObj(r) => Some(r.id)
    case ResponseObj(r) => Some(r.id)
    case NotificationObj(n) => Some(n.id)
    case NilObj => None
    case OtherObj(id, _) => id
  }

  /** What `other.type` yields, or None when `other` does not respond to `type`. */
  function TypeOf(o: Obj): Option<string> {
    match o
    case RequestObj(r) => Some(r.typeName)
    case ResponseObj(_) => None
    case NotificationObj(n) => Some(n.typeName)
    case NilObj => None
    case OtherObj(_, t) => t
  }

  /** The exceptions of errors.rb, all kinds of OpenRubyRMKError, plus the
      Ruby built-in exceptions the core lets escape. An UnknownParameter
      records the parameter name and the offending action in the field that
      matches its kind. */
  datatype Exception =
    | MalformedCommand
    | AuthenticationError
    | UnknownParameter(name: string, request: Request?, response: Response?, notification: Notification?)
    | Core(error: CoreError)

  /** Whether `rescue OpenRubyRMKError` catches the exception: the three
      subclasses errors.rb declares, and no Ruby built-in exception. */
  predicate IsOpenRubyRMKError(e: Exception)
    ensures IsOpenRubyRMKError(e) <==> e.MalformedCommand? || e.AuthenticationError? || e.UnknownParameter?
  {
    !e.Core?
  }

  /** Exactly one of the three action fields of an UnknownParameter is set. */
  predicate OneActionSet(e: Exception)
    requires e.UnknownParameter?
  {
    (if e.request != null then 1 else 0)
    + (if e.response != null then 1 else 0)
    + (if e.notification != null then 1 else 0) == 1
  }

  /** The action an UnknownParameter blames. */
  function Blamed(e: Exception): Obj
    requires e.UnknownParameter?
  {
    if e.request != null then RequestObj(e.request)
    else if e.response != null then ResponseObj(e.response)
    else if e.notification != null then NotificationObj(e.notification)
    else NilObj
  }

  /** `UnknownParameter.new(action, name)` as written: the default message
      calls `action.inspect` first, and `Response#inspect` dereferences the
      response's request, so an unmapped response raises NoMethodError
      (`type` on nil) instead; anything but an action raises TypeError. */
  function UnknownParameterFor(action: Obj, name: string): (e: Exception)
    ensures action.NilObj? || action.OtherObj? ==> e == Core(TypeError)
    ensures action.ResponseObj? && !action.response.Mapped() ==> e == Core(NoMethodError("type"))
    ensures e.UnknownParameter? <==>
      action.RequestObj? || action.NotificationObj? || (action.ResponseObj? && action.response.Mapped())
    ensures e.UnknownParameter? ==> e.name == name && OneActionSet(e) && Blamed(e) == action
  {
    match action
    case RequestObj(r) => UnknownParameter(name, r, null, null)
    case ResponseObj(r) =>
      if r.request == null then Core(NoMethodError("type"))
      else UnknownParameter(name, null, r, null)
    case NotificationObj(n) => UnknownParameter(name, null, null, n)
    case NilObj => Core(TypeError)
    case OtherObj(_, _) => Core(TypeError)
  }

  /** `UnknownParameter.new(action, name)` as evidently intended: every
      Request, Response or Notification yields an UnknownParameter blaming it. */
  function UnknownParameterIntended(action: Obj, name: string): (e: Exception)
    ensures e.UnknownParameter? <==> action.RequestObj? || action.ResponseObj? || action.NotificationObj?
    ensures e.UnknownParameter? ==> e.name == name && OneActionSet(e) && Blamed(e) == action
    ensures !(action.ResponseObj? && !action.response.Mapped()) ==> e == UnknownParameterFor(action, name)
  {
    match action
    case ResponseObj(r) => UnknownParameter(name, null, r, null)
    case _ => UnknownParameterFor(action, name)
  }

  /** The finding in one statement: the two constructions disagree exactly on
      responses without a request. */
  lemma UnknownParameterForUnmappedResponse(r: Response, name: string)
    requires !r.Mapped()
    ensures UnknownParameterFor(ResponseObj(r), name) == Core(NoMethodError("type"))
    ensures UnknownParameterIntended(ResponseObj(r), name) == UnknownParameter(name, null, r, null)
  {
  }

  /** `request.responses.none?{|resp| resp.status == "ok" or resp.status == "finished"}`. */
  function NoneTerminal(responses: seq<Response>): (b: bool)
    ensures b <==> forall k :: 0 <= k < |responses| ==> !Terminal(responses[k].status)
  {
    if responses == [] then true
    else !Terminal(responses[0].status) && NoneTerminal(responses[1..])
  }

  /** Response equality's view of the two linked requests: both nil, or both
      present and equal by `Request#==`. */
  predicate SameRequest(a: Request?, b: Request?) {
    if a == null then b == null
    else b != null && a.Eql(RequestObj(b))
  }

  /** Request equality is an equivalence relation on requests. */
  lemma RequestEqualityIsEquivalence(a: Request, b: Request, c: Request)
    ensures a.Eql(RequestObj(a))
    ensures a.Eql(RequestObj(b)) == b.Eql(RequestObj(a))
    ensures a.Eql(RequestObj(b)) && b.Eql(RequestObj(c)) ==> a.Eql(RequestObj(c))
  {
  }

  /** Requests and notifications both answer to `id` and `type`, so each
      compares equal to the other exactly when the other compares equal to it. */
  lemma RequestNotificationEqualitySymmetric(r: Request, n: Notification)
    ensures r.Eql(NotificationObj(n)) == n.Eql(RequestObj(r))
    ensures r.Eql(NotificationObj(n)) <==> r.id == n.id && r.typeName == n.typeName
  {
  }

  /** Response equality never raises between responses, is reflexive and
      symmetric, and separates mapped from unmapped responses. */
  lemma ResponseEqualityLaws(a: Response, b: Response)
    ensures a.Eql(ResponseObj(a)) == Success(true)
    ensures a.Eql(ResponseObj(b)) == b.Eql(ResponseObj(a))
    ensures a.Mapped() != b.Mapped() ==> a.Eql(ResponseObj(b)) == Success(false)
  {
  }

  /** A string longer than every string of a finite set, hence not in it. */
  lemma {:induction false} LongerThanAll(keys: set<string>) returns (k: string)
    ensures forall s :: s in keys ==> |s| < |k|
    decreases |keys|
  {
    if keys == {} {
      k := "?";
    } else {
      var s :| s in keys;
      var longer := LongerThanAll(keys - {s});
      k := longer + s + "?";
    }
  }

  /** `mapped?` decides the finding: for a mapped response every read agrees
      with the intended one, and an unmapped response has a key (one neither
      set nor defaulted) whose read raises NoMethodError instead. */
  lemma MappedExactlyWhenReadsAgree(r: Response)
    ensures r.Mapped() ==> forall par :: r.GetAsWritten(par) == r.Get(par)
    ensures (forall par :: r.GetAsWritten(par) == r.Get(par)) ==> r.Mapped()
  {
    if !r.Mapped() {
      var k := LongerThanAll(r.parameters.Keys + r.defaultParameterValues.Keys);
      assert k !in r.parameters && k !in r.defaultParameterValues;
      assert r.GetAsWritten(Str(k)).error.Core?;
    }
  }

  /** `rescue OpenRubyRMKError` around a parameter read catches every error of
      a request, of a response read as intended and of a notification with a
      default table; around the as-written read of an unmapped response it
      does not. */
  lemma RescueCatchesReadErrors(q: Request, p: Response, n: Notification, par: Value)
    ensures q.Get(par).Failure? ==> IsOpenRubyRMKError(q.Get(par).error)
    ensures p.Get(par).Failure? ==> IsOpenRubyRMKError(p.Get(par).error)
    ensures n.defaultParameterValues.Some? && n.Get(par).Failure? ==> IsOpenRubyRMKError(n.Get(par).error)
    ensures !p.Mapped() && p.GetAsWritten(par).Failure? ==> !IsOpenRubyRMKError(p.GetAsWritten(par).error)
  {
  }

  class Request {
    /** The (hopefully unique) request id. */
    const id: int
    /** The request's type, `type` in Ruby, always a string. */
    const typeName: string
    var parameters: map<string, string>
    var defaultParameterValues: map<string, string>
    /** Every response received for this request, in arrival order. */
    var responses: seq<Response>

    constructor (id: int, typeName: Value)
      ensures this.id == id && this.typeName == ToS(typeName)
      ensures parameters == map[] && defaultParameterValues == map[] && responses == []
    {
      this.id := id;
      this.typeName := ToS(typeName);
      parameters := map[];
      defaultParameterValues := map[];
      responses := [];
    }

    /** Marks a parameter optional: reading it when unset yields the default. */
    method AddDefaultValue(name: Value, defaultValue: Value := Str(""))
      modifies this`defaultParameterValues
      ensures defaultParameterValues == old(defaultParameterValues)[ToS(name) := ToS(defaultValue)]
      ensures ToS(name) !in parameters ==> Get(name) == Success(ToS(defaultValue))
      ensures ToS(name) in parameters ==> Get(name) == old(Get(name))
    {
      defaultParameterValues := defaultParameterValues[ToS(name) := ToS(defaultValue)];
    }

    /** `req[par]`: the explicit value, else the default, else UnknownParameter
        naming this request and the key. */
    function Get(par: Value): (r: Result<string, Exception>)
      reads this
      ensures ToS(par) in parameters ==> r == Success(parameters[ToS(par)])
      ensures ToS(par) !in parameters && ToS(par) in defaultParameterValues ==>
        r == Success(defaultParameterValues[ToS(par)])
      ensures ToS(par) !in parameters && ToS(par) !in defaultParameterValues ==>
        r == Failure(UnknownParameter(ToS(par), this, null, null))
    {
      var key := ToS(par);
      match Lookup(parameters, defaultParameterValues, key)
      case Some(v) => Success(v)
      case None => Failure(UnknownParameterFor(RequestObj(this), key))
    }

    /** `req[par] = value`: both coerced to strings. */
    method Set(par: Value, value: Value)
      modifies this`parameters
      ensures parameters == old(parameters)[ToS(par) := ToS(value)]
      ensures Get(Str(ToS(par))) == Get(Sym(ToS(par))) == Success(ToS(value))
      ensures forall k :: ToS(k) != ToS(par) ==> Get(k) == old(Get(k))
    {
      parameters := parameters[ToS(par) := ToS(value)];
    }

    /** `eql?`/`==`: same id and same type; the parameters and responses play
        no part, and an object without `id` or `type` is never equal. */
    function Eql(other: Obj): (b: bool)
      ensures b <==> IdOf(other) == Some(id) && TypeOf(other) == Some(typeName)
    {
      match other
      case RequestObj(r) => id == r.id && typeName == r.typeName
      case NotificationObj(n) => id == n.id && typeName == n.typeName
      case OtherObj(Some(i), Some(t)) => id == i && typeName == t
      case _ => false
    }

    /** `running?`: no ok or finished response has arrived yet. */
    function Running(): (b: bool)
      reads this
      ensures b <==> forall k :: 0 <= k < |responses| ==> !Terminal(responses[k].status)
      ensures responses == [] ==> b
    {
      NoneTerminal(responses)
    }

    /** What the codec does with a received response answering this request:
        appended while the request is running, dropped once an ok or
        finished response has arrived. */
    method ReceiveResponse(resp: Response)
      requires resp.request == this
      modifies this`responses
      ensures old(Running()) ==> responses == old(responses) + [resp]
      ensures !old(Running()) ==> responses == old(responses)
      ensures Running() <==> old(Running()) && !Terminal(resp.status)
    {
      if Running() {
        responses := responses + [resp];
        assert responses[|responses| - 1] == resp;
        assert forall k :: 0 <= k < |old(responses)| ==> responses[k] == old(responses)[k];
      }
    }
  }

  class Response {
    const id: int
    /** The status, always a string ("ok", "processing", ...). */
    const status: string
    /** The request answered; nil only for some error responses. */
    const request: Request?
    var parameters: map<string, string>
    var defaultParameterValues: map<string, string>

    constructor (id: int, status: Value, request: Request?)
      ensures this.id == id && this.status == ToS(status) && this.request == request
      ensures parameters == map[] && defaultParameterValues == map[]
    {
      this.id := id;
      this.status := ToS(status);
      this.request := request;
      parameters := map[];
      defaultParameterValues := map[];
    }

    method AddDefaultValue(name: Value, defaultValue: Value := Str(""))
      modifies this`defaultParameterValues
      ensures defaultParameterValues == old(defaultParameterValues)[ToS(name) := ToS(defaultValue)]
      ensures ToS(name) !in parameters ==> Get(name) == Success(ToS(defaultValue))
      ensures ToS(name) in parameters ==> Get(name) == old(Get(name))
    {
      defaultParameterValues := defaultParameterValues[ToS(name) := ToS(defaultValue)];
    }

    /** `resp[par]` as written: on a missing key without default, a response
        without a request raises NoMethodError instead of UnknownParameter. */
    function GetAsWritten(par: Value): (r: Result<string, Exception>)
      reads this
      ensures Lookup(parameters, defaultParameterValues, ToS(par)).Some? ==> r == Get(par)
      ensures Lookup(parameters, defaultParameterValues, ToS(par)).None? && !Mapped() ==>
        r == Failure(Core(NoMethodError("type")))
      ensures Mapped() ==> r == Get(par)
    {
      var key := ToS(par);
      match Lookup(parameters, defaultParameterValues, key)
      case Some(v) => Success(v)
      case None => Failure(UnknownParameterFor(ResponseObj(this), key))
    }

    /** `resp[par]` as intended: the explicit value, else the default, else
        UnknownParameter naming this response and the key. */
    function Get(par: Value): (r: Result<string, Exception>)
      reads this
      ensures ToS(par) in parameters ==> r == Success(parameters[ToS(par)])
      ensures ToS(par) !in parameters && ToS(par) in defaultParameterValues ==>
        r == Success(defaultParameterValues[ToS(par)])
      ensures ToS(par) !in parameters && ToS(par) !in defaultParameterValues ==>
        r == Failure(UnknownParameter(ToS(par), null, this, null))
    {
      var key := ToS(par);
      match Lookup(parameters, defaultParameterValues, key)
      case Some(v) => Success(v)
      case None => Failure(UnknownParameterIntended(ResponseObj(this), key))
    }

    method Set(par: Value, value: Value)
      modifies this`parameters
      ensures parameters == old(parameters)[ToS(par) := ToS(value)]
      ensures Get(Str(ToS(par))) == Get(Sym(ToS(par))) == Success(ToS(value))
      ensures forall k :: ToS(k) != ToS(par) ==> Get(k) == old(Get(k))
    {
      parameters := parameters[ToS(par) := ToS(value)];
    }

    /** `mapped?`: the response belongs to a request. */
    predicate Mapped() {
      request != null
    }

    /** `eql?`/`==`: nil and objects without `id` are not equal; other
        objects without `request` raise NoMethodError; two responses are equal
        when their requests are (nil matching only nil) and their ids and
        statuses match. */
    function Eql(other: Obj): (r: Result<bool, Exception>)
      ensures IdOf(other).None? ==> r == Success(false)
      ensures IdOf(other).Some? && !other.ResponseObj? ==> r == Failure(Core(NoMethodError("request")))
      ensures other.ResponseObj? ==>
        && r.Success?
        && (r.value <==> SameRequest(request, other.response.request)
                         && id == other.response.id && status == other.response.status)
      ensures other.ResponseObj? && Mapped() != other.response.Mapped() ==> r == Success(false)
    {
      match other
      case ResponseObj(o) =>
        var sameRequest := if request == null then o.request == null else request.Eql(if o.request == null then NilObj else RequestObj(o.request));
        Success(sameRequest && id == o.id && status == o.status)
      case NilObj => Success(false)
      case OtherObj(None, _) => Success(false)
      case _ => Failure(Core(NoMethodError("request")))
    }
  }

  class Notification {
    const id: int
    /** The notification's type, `type` in Ruby, always a string. */
    const typeName: string
    var parameters: map<string, string>
    /** Never set by the constructor: nil until assigned through the accessor. */
    var defaultParameterValues: Option<map<string, string>>

    constructor (id: int, typeName: Value)
      ensures this.id == id && this.typeName == ToS(typeName)
      ensures parameters == map[] && defaultParameterValues == None
    {
      this.id := id;
      this.typeName := ToS(typeName);
      parameters := map[];
      defaultParameterValues := None;
    }

    /** The `default_parameter_values=` accessor. */
    method SetDefaultParameterValues(defaults: map<string, string>)
      modifies this`defaultParameterValues
      ensures defaultParameterValues == Some(defaults)
    {
      defaultParameterValues := Some(defaults);
    }

    /** Fails with NoMethodError (`[]=` on nil) while no default table exists. */
    method AddDefaultValue(name: Value, defaultValue: Value := Str("")) returns (err: Option<Exception>)
      modifies this`defaultParameterValues
      ensures old(defaultParameterValues).None? ==>
        err == Some(Core(NoMethodError("[]="))) && defaultParameterValues == None
      ensures old(defaultParameterValues).Some? ==>
        && err == None
        && defaultParameterValues == Some(old(defaultParameterValues).value[ToS(name) := ToS(defaultValue)])
      ensures err == None && ToS(name) !in parameters ==> Get(name) == Success(ToS(defaultValue))
    {
      match defaultParameterValues
      case None =>
        err := Some(Core(NoMethodError("[]=")));
      case Some(d) =>
        defaultParameterValues := Some(d[ToS(name) := ToS(defaultValue)]);
        err := None;
    }

    /** `note[par]`: the explicit value; else, without a default table,
        NoMethodError (`has_key?` on nil); else the default or UnknownParameter. */
    function Get(par: Value): (r: Result<string, Exception>)
      reads this
      ensures ToS(par) in parameters ==> r == Success(parameters[ToS(par)])
      ensures ToS(par) !in parameters && defaultParameterValues.None? ==>
        r == Failure(Core(NoMethodError("has_key?")))
      ensures ToS(par) !in parameters && defaultParameterValues.Some? ==>
        r == match Lookup(map[], defaultParameterValues.value, ToS(par))
             case Some(v) => Success(v)
             case None => Failure(UnknownParameter(ToS(par), null, null, this))
    {
      var key := ToS(par);
      if key in parameters then Success(parameters[key])
      else match defaultParameterValues
        case None => Failure(Core(NoMethodError("has_key?")))
        case Some(d) =>
          match Lookup(parameters, d, key)
          case Some(v) => Success(v)
          case None => Failure(UnknownParameterFor(NotificationObj(this), key))
    }

    method Set(par: Value, value: Value)
      modifies this`parameters
      ensures parameters == old(parameters)[ToS(par) := ToS(value)]
      ensures Get(Str(ToS(par))) == Get(Sym(ToS(par))) == Success(ToS(value))
      ensures forall k :: ToS(k) != ToS(par) ==> Get(k) == old(Get(k))
    {
      parameters := parameters[ToS(par) := ToS(value)];
    }

    /** `eql?`/`==`: same type and same id; an object without `type` or `id`
        is never equal. */
    function Eql(other: Obj): (b: bool)
      ensures b <==> TypeOf(other) == Some(typeName) && IdOf(other) == Some(id)
    {
      match other
      case RequestObj(r) => typeName == r.typeName && id == r.id
      case NotificationObj(n) => typeName == n.typeName && id == n.id
      case OtherObj(Some(i), Some(t)) => typeName == t && id == i
      case _ => false
    }
  }
}
