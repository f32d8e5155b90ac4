/**
 * The SDK's own exceptions (huma_sdk/exceptions.py). An exception is its
 * class and the arguments it hands to `Exception.__init__`; both classes
 * hand over exactly one argument, the message built here.
 */
module Exceptions {
  import opened PyJson

  datatype SdkException =
    | ResourceNotExistsError(args: seq<string>)
    | UnauthorizedException(args: seq<string>)

  /** What precedes each available service in the message. */
  const Bullet: string := "   - "

  /** The separator `'\n   - '.join` puts between two services. */
  const BulletSeparator: string := "\n   - "

  /** The first line of the unknown-resource message. */
  function MissingResourceLine(serviceName: string): string {
    "The '" + serviceName + "' resource does not exist."
  }

  const AvailableResourcesLine: string := "The available resources are:"

  /** The message of `ResourceNotExistsError`: the format string with the name and the joined services. */
  function ResourceNotExistsMessage(serviceName: string, availableServices: seq<string>): string {
    MissingResourceLine(serviceName) + "\n" + AvailableResourcesLine + "\n" + Bullet
      + Join(BulletSeparator, availableServices) + "\n"
  }

  /** `ResourceNotExistsError(service_name, available_services)`. */
  function NewResourceNotExistsError(serviceName: string, availableServices: seq<string>): SdkException {
    ResourceNotExistsError([ResourceNotExistsMessage(serviceName, availableServices)])
  }

  /** The text before the error message in the message of `UnauthorizedException`. */
  function UnauthorizedPrefix(serviceName: string): string {
    "Access to the '" + serviceName + "' service is restricted due to "
  }

  /** `UnauthorizedException(service_name, error_message)`. */
  function NewUnauthorizedException(serviceName: string, errorMessage: string): SdkException {
    UnauthorizedException([UnauthorizedPrefix(serviceName) + errorMessage])
  }

  /** Each service on a line of its own, after the bullet. */
  function BulletLines(services: seq<string>): (lines: seq<string>)
    ensures |lines| == |services|
    ensures forall i :: 0 <= i < |services| ==> lines[i] == Bullet + services[i]
  {
    if services == [] then [] else [Bullet + services[0]] + BulletLines(services[1..])
  }

  /** The bullet followed by the services joined with the bullet separator is the bullet lines joined by newlines. */
  lemma {:induction false} BulletJoin(services: seq<string>)
    requires services != []
    ensures Bullet + Join(BulletSeparator, services) == Join("\n", BulletLines(services))
  {
    if |services| > 1 {
      BulletJoin(services[1..]);
      var rest := Join(BulletSeparator, services[1..]);
      var lines := BulletLines(services);
      assert lines[1..] == BulletLines(services[1..]);
      calc {
        Bullet + Join(BulletSeparator, services);
        Bullet + (services[0] + BulletSeparator + rest);
        (Bullet + services[0]) + "\n" + (Bullet + rest);
        lines[0] + "\n" + Join("\n", lines[1..]);
      }
    }
  }

  /** `Join` of a sequence with at least two pieces puts the separator after the first. */
  lemma JoinCons(sep: string, x: string, xs: seq<string>)
    requires xs != []
    ensures Join(sep, [x] + xs) == x + sep + Join(sep, xs)
  {
    assert ([x] + xs)[1..] == xs;
  }

  /** The lines of the unknown-resource message, for a non-empty list of services. */
  function MessageLines(serviceName: string, services: seq<string>): seq<string> {
    [MissingResourceLine(serviceName), AvailableResourcesLine] + BulletLines(services) + [""]
  }

  /** Two header lines, some lines and an empty last line, joined by `sep`. */
  lemma {:induction false} JoinFramed(sep: string, a: string, b: string, body: seq<string>)
    requires body != []
    ensures Join(sep, [a, b] + body + [""]) == a + sep + b + sep + Join(sep, body) + sep
  {
    JoinSnoc(sep, body, "");
    JoinCons(sep, b, body + [""]);
    JoinCons(sep, a, [b] + (body + [""]));
    assert [a, b] + body + [""] == [a] + ([b] + (body + [""]));
    assert Join(sep, body) + sep + "" == Join(sep, body) + sep;
  }

  /** The message is its lines joined by newlines. */
  lemma MessageIsJoinedLines(serviceName: string, services: seq<string>)
    requires services != []
    ensures Join("\n", MessageLines(serviceName, services)) == ResourceNotExistsMessage(serviceName, services)
  {
    BulletJoin(services);
    var m, j := MissingResourceLine(serviceName), Join(BulletSeparator, services);
    JoinFramed("\n", m, AvailableResourcesLine, BulletLines(services));
    assert m + "\n" + AvailableResourcesLine + "\n" + (Bullet + j) + "\n"
        == m + "\n" + AvailableResourcesLine + "\n" + Bullet + j + "\n";
  }

  /** No line of the message holds a newline when neither the name nor a service does. */
  lemma MessageLinesSingle(serviceName: string, services: seq<string>)
    requires '\n' !in serviceName
    requires forall i :: 0 <= i < |services| ==> '\n' !in services[i]
    ensures forall i :: 0 <= i < |MessageLines(serviceName, services)| ==> '\n' !in MessageLines(serviceName, services)[i]
  {
    var lines := MessageLines(serviceName, services);
    forall i | 0 <= i < |lines|
      ensures '\n' !in lines[i]
    {
      if 2 <= i < |lines| - 1 {
        assert lines[i] == Bullet + services[i - 2];
      }
    }
  }

  /**
   * When neither the name nor any service contains a newline, the message
   * of `ResourceNotExistsError` read line by line names the
   * missing resource, announces the list, then gives each available
   * service in input order on a bulleted line of its own (a lone bullet
   * when there are none), and ends with a newline.
   */
  lemma ResourceNotExistsLines(serviceName: string, availableServices: seq<string>)
    requires '\n' !in serviceName
    requires forall i :: 0 <= i < |availableServices| ==> '\n' !in availableServices[i]
    ensures var e := NewResourceNotExistsError(serviceName, availableServices);
      && |e.args| == 1
      && Split(e.args[0], '\n')
           == [MissingResourceLine(serviceName), AvailableResourcesLine]
              + BulletLines(if availableServices == [] then [""] else availableServices)
              + [""]
  {
    var services := if availableServices == [] then [""] else availableServices;
    assert ResourceNotExistsMessage(serviceName, availableServices) == ResourceNotExistsMessage(serviceName, services);
    MessageIsJoinedLines(serviceName, services);
    MessageLinesSingle(serviceName, services);
    SplitJoin(MessageLines(serviceName, services), '\n');
  }

  /**
   * The message of `UnauthorizedException` is the fixed sentence about the
   * service followed by the error message, which can be read back from it.
   */
  lemma UnauthorizedMessage(serviceName: string, errorMessage: string)
    ensures var e := NewUnauthorizedException(serviceName, errorMessage);
      var p := "Access to the '" + serviceName + "' service is restricted due to ";
      && |e.args| == 1
      && |e.args[0]| == |p| + |errorMessage|
      && e.args[0][..|p|] == p
      && e.args[0][|p|..] == errorMessage
  {
    var p := UnauthorizedPrefix(serviceName);
    assert (p + errorMessage)[..|p|] == p;
    assert (p + errorMessage)[|p|..] == errorMessage;
  }

  /** Two unauthorised-access messages for the same service differ when the error messages differ. */
  lemma UnauthorizedMessageInjective(serviceName: string, e1: string, e2: string)
    requires NewUnauthorizedException(serviceName, e1) == NewUnauthorizedException(serviceName, e2)
    ensures e1 == e2
  {
    UnauthorizedMessage(serviceName, e1);
    UnauthorizedMessage(serviceName, e2);
  }
}
