/**
 * The request details the logging aspect records with every login, print, page access and
 * download (annotation/LoggingAspect.java): the client address, the user, and the page or file
 * name built from the first text argument of the intercepted call.
 */
module AccessLogging {
  import opened Wrappers
  import opened Strings

  /** The request headers and the socket address the aspect reads. */
  datatype Request = Request(forwardedFor: Option<string>, realIp: Option<string>, remoteAddr: Option<string>)

  /** Why `getClientIp` throws. */
  datatype IpError =
    | NoRequestAttributes   // `IllegalAccessException`: not called within a request
    | NoForwardedAddress    // `split(",")` of a header made of commas only has no element 0

  /** A header value is used when it is present, non-empty and not "unknown" in any letter case. */
  predicate Usable(header: Option<string>)
  {
    header.Some? && |header.value| > 0 && !EqualsIgnoreCase("unknown", header.value)
  }

  /**
   * `getClientIp`: the first entry of a usable X-Forwarded-For header, else a usable X-Real-IP
   * header, else the remote address.
   */
  function ClientIp(attributes: Option<Request>): (r: Result<Option<string>, IpError>)
    ensures attributes.None? <==> r == Failure(NoRequestAttributes)
    ensures attributes.Some? && !Usable(attributes.value.forwardedFor) && Usable(attributes.value.realIp) ==>
              r == Success(attributes.value.realIp)
    ensures attributes.Some? && !Usable(attributes.value.forwardedFor) && !Usable(attributes.value.realIp) ==>
              r == Success(attributes.value.remoteAddr)
  {
    if attributes.None? then Failure(NoRequestAttributes)
    else
      var request := attributes.value;
      if Usable(request.forwardedFor) then
        var parts := JavaSplit(request.forwardedFor.value, ',');
        if |parts| == 0 then Failure(NoForwardedAddress) else Success(Some(parts[0]))
      else if Usable(request.realIp) then Success(request.realIp)
      else Success(request.remoteAddr)
  }

  const Unauthorized: string := "인가되지 않은 인원"

  /** `getUserId`: the authenticated name, or the "unauthorised person" text without authentication. */
  function UserId(authenticationName: Option<Option<string>>): (r: Option<string>)
    ensures authenticationName.None? ==> r == Some(Unauthorized)
    ensures authenticationName.Some? ==> r == authenticationName.value
  {
    if authenticationName.None? then Some(Unauthorized) else authenticationName.value
  }

  /** An argument of the intercepted call: a string, or anything else (null included). */
  datatype Argument = Text(text: string) | NotText

  /** The first text argument, or "" when there is none (or no argument array). */
  function FirstText(args: seq<Argument>): (r: string)
    decreases |args|
  {
    if |args| == 0 then ""
    else if args[0].Text? then args[0].text
    else FirstText(args[1..])
  }

  /** The search loop of `accessLog` and `download`: it stops at the first string argument. */
  method ProcessType(args: Option<seq<Argument>>) returns (processType: string)
    ensures args.None? ==> processType == ""
    ensures args.Some? ==> processType == FirstText(args.value)
  {
    processType := "";
    if args.Some? {
      var i := 0;
      while i < |args.value|
        invariant 0 <= i <= |args.value|
        invariant FirstText(args.value) == FirstText(args.value[i..])
        decreases |args.value| - i
      {
        if args.value[i].Text? {
          processType := args.value[i].text;
          break;
        }
        assert args.value[i..][1..] == args.value[i + 1..];
        i := i + 1;
      }
    }
  }

  /** The recorded access page: the process type followed by the annotation's page. */
  method AccessPage(args: Option<seq<Argument>>, annotationPage: string) returns (page: string)
    ensures args.None? ==> page == annotationPage
    ensures args.Some? ==> page == FirstText(args.value) + annotationPage
  {
    var processType := ProcessType(args);
    page := processType + annotationPage;
  }

  /** The recorded download file name: the process type followed by the annotation's file name. */
  method DownloadFileName(args: Option<seq<Argument>>, fileName: string) returns (name: string)
    ensures args.None? ==> name == fileName
    ensures args.Some? ==> name == FirstText(args.value) + fileName
  {
    var processType := ProcessType(args);
    name := processType + fileName;
  }

  // ---------------------------------------------------------------------------------------------
  // Properties

  /**
   * A usable X-Forwarded-For header gives the text before its first comma, which may be empty
   * (",10.0.0.1" gives "").
   */
  lemma ForwardedFirst(request: Request)
    requires Usable(request.forwardedFor)
    ensures var r := ClientIp(Some(request));
            r.Success? ==> r.value.Some? && r.value.value <= request.forwardedFor.value
                           && ',' !in r.value.value
                           && (|r.value.value| == |request.forwardedFor.value| || request.forwardedFor.value[|r.value.value|] == ',')
  {
    var h := request.forwardedFor.value;
    if ',' in h {
      SplitFirst(h, ',');
    }
  }

  /** A header with a real address before the first comma gives exactly that address. */
  lemma ForwardedList(first: string, rest: string, realIp: Option<string>, remote: Option<string>)
    requires |first| > 0 && ',' !in first && !EqualsIgnoreCase("unknown", first + "," + rest)
    ensures ClientIp(Some(Request(Some(first + "," + rest), realIp, remote))) == Success(Some(first))
  {
    var h := first + "," + rest;
    assert h[|first|] == ',';
    SplitFirst(h, ',');
    var parts := Split(h, ',');
    assert parts[0] == first;
    assert DropTrailingEmpty(parts)[0] == first by {
      assert parts[0] != "";
    }
  }

  /** A header of commas only is usable, but Java's split of it is empty, so reading element 0 throws. */
  lemma CommasOnlyThrows(realIp: Option<string>, remote: Option<string>)
    ensures ClientIp(Some(Request(Some(",,"), realIp, remote))) == Failure(NoForwardedAddress)
  {
    assert ",,"[1..] == ",";
    assert ","[1..] == "";
    assert Split(",,", ',') == ["", "", ""];
    assert !EqualsIgnoreCase("unknown", ",,");
  }

  /** "unknown" in any letter case is never used. */
  lemma UnknownIsSkipped(realIp: Option<string>, remote: Option<string>)
    ensures ClientIp(Some(Request(Some("UnKnown"), realIp, remote))) == ClientIp(Some(Request(None, realIp, remote)))
  {
    assert EqualsIgnoreCase("unknown", "UnKnown");
  }

  /** The process type is the first string argument, skipping every other argument before it. */
  lemma {:induction false} FirstTextIsFirst(args: seq<Argument>, i: nat)
    requires i < |args| && args[i].Text?
    requires forall j :: 0 <= j < i ==> args[j].NotText?
    ensures FirstText(args) == args[i].text
    decreases i
  {
    if i > 0 {
      assert args[1..][i - 1] == args[i];
      FirstTextIsFirst(args[1..], i - 1);
    }
  }

  /** Without a string argument the process type is "". */
  lemma {:induction false} NoTextIsEmpty(args: seq<Argument>)
    requires forall j :: 0 <= j < |args| ==> args[j].NotText?
    ensures FirstText(args) == ""
    decreases |args|
  {
    if |args| > 0 {
      NoTextIsEmpty(args[1..]);
    }
  }
}
