/**
 * Choosing a service client by name (huma_sdk/_session.py, with the
 * tables of huma_sdk/_service_config.py, and `session` of
 * huma_sdk/__init__.py).
 *
 * The service client classes are not modelled beyond their identity: a
 * created connection is the class together with the arguments it was
 * constructed with. Python's `str()` of a service name that is neither a
 * string nor None is the parameter `str`.
 */
module Session {
  import opened PyJson
  import opened Exceptions

  /** The client classes of `SERVICE_MAPPINGS`. */
  datatype ServiceClass = QuicklinksClient | AliasesClient | AuditsClient

  /** `AVAILABLE_SERVICES`, in its order. */
  const AvailableServices: seq<string> := ["Quicklinks", "Aliases", "Audits"]

  /** `SERVICE_MAPPINGS`. */
  const ServiceMappings: map<string, ServiceClass> :=
    map["Quicklinks" := QuicklinksClient, "Aliases" := AliasesClient, "Audits" := AuditsClient]

  /** The fields of a constructed `_Session`. */
  datatype SessionFields = SessionFields(serviceName: string, availableServices: seq<string>)

  /** A service client: its class and the arguments it was constructed with. */
  datatype Connection = Connection(serviceClass: ServiceClass, args: seq<Json>, kwargs: map<string, Json>)

  /** What a call returns or raises: one of the SDK's exceptions, or a built-in one. */
  datatype Raises<+T> = Ok(value: T) | Throws(exception: SdkException) | Fails(error: PyError)

  /** `kwargs.get('service_name')`. */
  function ServiceNameArg(kwargs: map<string, Json>): Json {
    if "service_name" in kwargs then kwargs["service_name"] else JNull
  }

  /** How `'{}'.format` renders the service name. */
  function FormatName(name: Json, str: Json -> string): string {
    match name
    case JStr(s) => s
    case JNull => "None"
    case _ => str(name)
  }

  /** `service_name not in AVAILABLE_SERVICES`, negated: only one of the three strings is in the tuple. */
  predicate IsAvailable(name: Json) {
    name.JStr? && name.s in AvailableServices
  }

  /**
   * `_Session.__init__`: a missing, falsy or unknown service name raises
   * `ResourceNotExistsError` with the available services; otherwise the
   * name and the available services are kept.
   */
  function NewSession(kwargs: map<string, Json>, str: Json -> string): (r: Raises<SessionFields>)
    ensures r.Ok? <==> "service_name" in kwargs && kwargs["service_name"].JStr?
                       && kwargs["service_name"].s in AvailableServices
    ensures r.Ok? ==> r.value == SessionFields(kwargs["service_name"].s, AvailableServices)
    ensures !r.Ok? ==> r == Throws(NewResourceNotExistsError(FormatName(ServiceNameArg(kwargs), str), AvailableServices))
  {
    var name := ServiceNameArg(kwargs);
    if !Truthy(name) || !IsAvailable(name) then
      Throws(NewResourceNotExistsError(FormatName(name, str), AvailableServices))
    else Ok(SessionFields(name.s, AvailableServices))
  }

  /**
   * `create_connection`: the mapped class constructed with the arguments.
   * A name without a mapping makes `.get` give None, and calling None
   * raises TypeError.
   */
  function CreateConnection(s: SessionFields, args: seq<Json>, kwargs: map<string, Json>): (r: Raises<Connection>)
    ensures r.Ok? <==> s.serviceName in ServiceMappings
    ensures r.Ok? ==> r.value.serviceClass == ServiceMappings[s.serviceName] && r.value.args == args && r.value.kwargs == kwargs
    ensures !r.Ok? ==> r == Fails(TypeError)
  {
    if s.serviceName in ServiceMappings then Ok(Connection(ServiceMappings[s.serviceName], args, kwargs))
    else Fails(TypeError)
  }

  /** `session(*args, **kwargs)`: validate the name, then create the connection with the same arguments. */
  function StartSession(args: seq<Json>, kwargs: map<string, Json>, str: Json -> string): Raises<Connection> {
    match NewSession(kwargs, str)
    case Ok(s) => CreateConnection(s, args, kwargs)
    case Throws(e) => Throws(e)
    case Fails(e) => Fails(e)
  }

  /** Every available service has a client class, and only those do. */
  lemma {:induction false} TablesAgree()
    ensures forall name :: name in AvailableServices <==> name in ServiceMappings
  {
    forall name | name in ServiceMappings
      ensures name in AvailableServices
    {
      assert name == "Quicklinks" || name == "Aliases" || name == "Audits";
    }
  }

  /**
   * `session` either raises `ResourceNotExistsError` for a name it does
   * not know, or constructs the client class of that name with all the
   * arguments it was given (`service_name` included); it never raises
   * anything else.
   */
  lemma StartSessionOutcome(args: seq<Json>, kwargs: map<string, Json>, str: Json -> string)
    ensures var r := StartSession(args, kwargs, str);
      && !r.Fails?
      && (r.Ok? <==> IsAvailable(ServiceNameArg(kwargs)))
      && (r.Ok? ==> r.value == Connection(ServiceMappings[ServiceNameArg(kwargs).s], args, kwargs))
      && (r.Throws? ==> r.exception.ResourceNotExistsError?)
  {
    TablesAgree();
  }

  /** The three accepted names give the three client classes. */
  lemma AcceptedNames(str: Json -> string)
    ensures StartSession([], map["service_name" := JStr("Quicklinks")], str).value.serviceClass == QuicklinksClient
    ensures StartSession([], map["service_name" := JStr("Aliases")], str).value.serviceClass == AliasesClient
    ensures StartSession([], map["service_name" := JStr("Audits")], str).value.serviceClass == AuditsClient
  {
  }

  /** "Questions" is not one of the session's services: asking for it raises, naming it. */
  lemma QuestionsIsRejected(str: Json -> string)
    ensures NewSession(map["service_name" := JStr("Questions")], str)
         == Throws(NewResourceNotExistsError("Questions", ["Quicklinks", "Aliases", "Audits"]))
  {
  }
}
