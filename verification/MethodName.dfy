/** Splitting "/service/method" names when handlers are registered. */
module MethodName {

  datatype ParseResult =
    | Parsed(service: string, methodName: string)
    | OutOfRange     // std::string::at(0) on an empty name
    | InvalidName    // the first check fails
    | EmptyPart      // the last check fails

  /** What std::getline with delimiter '/' extracts ... */
  function Token(s: string): string {
    if s == [] || s[0] == '/' then [] else [s[0]] + Token(s[1..])
  }

  /** ... and what it leaves in the stream. */
  function Rest(s: string): string {
    if s == [] then [] else if s[0] == '/' then s[1..] else Rest(s[1..])
  }

  function Parse(name: string): ParseResult {
    if name == [] then OutOfRange
    else if name[0] != '/' then InvalidName
    else
      var service, methodName := Token(name[1..]), Token(Rest(name[1..]));
      if service == [] || methodName == [] then EmptyPart else Parsed(service, methodName)
  }

  /** std::getline on a stream at position `pos` of `s`. */
  method Getline(s: string, pos: nat) returns (token: string, next: nat)
    requires pos <= |s|
    ensures token == Token(s[pos..])
    ensures next <= |s| && s[next..] == Rest(s[pos..])
  {
    token, next := [], pos;
    while next < |s| && s[next] != '/'
      invariant pos <= next <= |s|
      invariant token + Token(s[next..]) == Token(s[pos..]) && Rest(s[next..]) == Rest(s[pos..])
    {
      assert s[next..][1..] == s[next + 1..];
      token, next := token + [s[next]], next + 1;
    }
    if next < |s| {
      assert s[next..][1..] == s[next + 1..];
      next := next + 1;
    }
  }

  method ParseMethodFullName(name: string) returns (r: ParseResult)
    ensures r == Parse(name)
  {
    if name == [] { return OutOfRange; }
    if name[0] != '/' { return InvalidName; }
    var stream := name[1..];
    var service, pos := Getline(stream, 0);
    assert stream[0..] == stream;
    var methodName, _ := Getline(stream, pos);
    if service == [] || methodName == [] { return EmptyPart; }
    return Parsed(service, methodName);
  }

  predicate SlashFree(s: string) {
    forall i :: 0 <= i < |s| ==> s[i] != '/'
  }

  predicate Part(s: string) {
    s != [] && SlashFree(s)
  }

  /** `s` starts with `part`, which ends there or at a slash. */
  predicate Leads(part: string, s: string) {
    part <= s && (|s| == |part| || s[|part|] == '/')
  }

  lemma {:induction false} TokenIff(s: string, part: string)
    ensures Token(s) == part <==> SlashFree(part) && Leads(part, s)
    decreases |s|
  {
    if s != [] && s[0] != '/' {
      if part != [] {
        TokenIff(s[1..], part[1..]);
        assert part == [part[0]] + part[1..];
        assert SlashFree(part) <==> part[0] != '/' && SlashFree(part[1..]) by {
          assert forall i :: 0 < i < |part| ==> part[i] == part[1..][i - 1];
        }
        assert part <= s <==> part[0] == s[0] && part[1..] <= s[1..];
      }
    }
  }

  lemma {:induction false} RestAfter(s: string)
    ensures s == Token(s) + (if |Token(s)| < |s| then "/" + Rest(s) else [])
    ensures |Token(s)| == |s| ==> Rest(s) == []
    decreases |s|
  {
    if s != [] && s[0] != '/' { RestAfter(s[1..]); }
  }

  /** A name is accepted as (service, method) exactly when it is "/service/method",
      with non-empty slash-free parts, possibly followed by a slash and anything. */
  lemma AcceptedIff(name: string, service: string, methodName: string)
    ensures Parse(name) == Parsed(service, methodName) <==>
      Part(service) && Part(methodName) && Leads("/" + service + "/" + methodName, name)
  {
    if Parse(name) == Parsed(service, methodName) {
      AcceptedForm(name, service, methodName);
    }
    if Part(service) && Part(methodName) && Leads("/" + service + "/" + methodName, name) {
      FormAccepted(name, service, methodName);
    }
  }

  lemma AcceptedForm(name: string, service: string, methodName: string)
    requires Parse(name) == Parsed(service, methodName)
    ensures Part(service) && Part(methodName) && Leads("/" + service + "/" + methodName, name)
  {
    var s := name[1..];
    TokenIff(s, service);
    TokenIff(Rest(s), methodName);
    RestAfter(s);
    assert name == "/" + service + "/" + Rest(s);
  }

  lemma FormAccepted(name: string, service: string, methodName: string)
    requires Part(service) && Part(methodName) && Leads("/" + service + "/" + methodName, name)
    ensures Parse(name) == Parsed(service, methodName)
  {
    var s, whole := name[1..], "/" + service + "/" + methodName;
    assert name == whole + name[|whole|..];
    var rest := methodName + name[|whole|..];
    assert s == service + "/" + rest;
    TokenIff(s, service);
    RestAfter(s);
    assert Rest(s) == rest by { assert s[|service| + 1..] == rest == Rest(s); }
    TokenIff(rest, methodName);
  }

  /** Registering "/service/method" yields its two parts again. */
  lemma RoundTrip(service: string, methodName: string)
    requires Part(service) && Part(methodName)
    ensures Parse("/" + service + "/" + methodName) == Parsed(service, methodName)
  {
    FormAccepted("/" + service + "/" + methodName, service, methodName);
  }

  /** When the process dies instead: an empty name throws, a name without a
      leading slash or with an empty part fails a check. */
  lemma RejectedIff(name: string)
    ensures Parse(name) == OutOfRange <==> name == []
    ensures Parse(name) == InvalidName <==> name != [] && name[0] != '/'
    ensures Parse(name) == EmptyPart <==>
      && name != [] && name[0] == '/'
      && !exists service, methodName ::
           Part(service) && Part(methodName) && Leads("/" + service + "/" + methodName, name)
  {
    if name != [] && name[0] == '/' {
      var service, methodName := Token(name[1..]), Token(Rest(name[1..]));
      if service != [] && methodName != [] { AcceptedForm(name, service, methodName); }
      forall service, methodName
        | Part(service) && Part(methodName) && Leads("/" + service + "/" + methodName, name)
        ensures Parse(name).Parsed?
      {
        FormAccepted(name, service, methodName);
      }
    }
  }
}
