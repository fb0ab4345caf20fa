/**
 * `CollectionsAPI`: turns a caller's arguments into requests to the
 * mobile-money service and hands each one to the injected transport.
 * Nothing reaches the transport before validation has passed, and each
 * public operation sends at most one request.
 */
module Collections {
  import opened Wrappers
  import opened Errors
  import opened Validation
  import Phone
  import Query
  import Strings

  datatype HttpMethod = GET | POST

  /** One call of the transport: `client.request(path, method=..., data=...)`. */
  datatype Request = Request(path: string, httpMethod: HttpMethod, data: Option<CollectParams>)

  /** What the remote service answered; passed back to the caller untouched. */
  datatype Response = Response(body: string)

  const ServicesPath: string := "/collections/services"
  const CollectionIdRequired: string := "Collection ID is required"

  /**
   * The transport collaborator. Its only effect that the model tracks is the
   * ghost log of requests sent; what the remote side answers is the injected
   * function `respond`, whose failures are returned as they are.
   */
  class Client {
    ghost var log: seq<Request>
    const respond: Request -> Result<Response, MarzPayError>

    constructor (respond: Request -> Result<Response, MarzPayError>)
      ensures this.respond == respond
      ensures log == []
    {
      this.respond := respond;
      log := [];
    }

    /** Sends one request: it is appended to the log and the service's answer is returned. */
    method Send(path: string, httpMethod: HttpMethod, data: Option<CollectParams>)
      returns (r: Result<Response, MarzPayError>)
      modifies this
      ensures log == old(log) + [Request(path, httpMethod, data)]
      ensures r == respond(Request(path, httpMethod, data))
    {
      log := log + [Request(path, httpMethod, data)];
      r := respond(Request(path, httpMethod, data));
    }
  }

  /** The path of one collection: `/collections/{id}`. */
  function CollectionPath(id: string): (path: string)
    ensures Strings.HasPrefix(path, Query.CollectionsPath + "/")
    ensures path[|Query.CollectionsPath + "/"|..] == id
  {
    Query.CollectionsPath + "/" + id
  }

  /**
   * The payload sent by `collect_money`: the caller's parameters with the
   * phone number replaced by its normalised form and nothing else changed.
   */
  function Payload(p: CollectParams): (q: CollectParams)
    requires p.phoneNumber.Some?
    ensures q.phoneNumber == Some(Phone.FormatPhoneNumber(p.phoneNumber.value))
    ensures q.(phoneNumber := p.phoneNumber) == p
  {
    p.(phoneNumber := Some(Phone.FormatPhoneNumber(p.phoneNumber.value)))
  }

  class CollectionsApi {
    const client: Client

    constructor (client: Client)
      ensures this.client == client
    {
      this.client := client;
    }

    /**
     * Validates the parameters and, only if they pass, sends exactly one
     * `POST /collections` whose payload is the parameters with the phone
     * number normalised. On a validation failure nothing is sent.
     */
    method CollectMoney(amount: Option<AmountValue>, phoneNumber: Option<string>, reference: Option<string>,
                        description: Option<string> := None, callbackUrl: Option<string> := None,
                        country: Option<string> := Some("UG"))
      returns (r: Result<Response, MarzPayError>)
      modifies client
      ensures var p := CollectParams(amount, phoneNumber, reference, description, callbackUrl, country);
        if ValidParams(p) then
          && client.log == old(client.log) + [Request(Query.CollectionsPath, POST, Some(Payload(p)))]
          && r == client.respond(Request(Query.CollectionsPath, POST, Some(Payload(p))))
        else
          && client.log == old(client.log)
          && r == Failure(ValidationError(ValidationFailed, ValidationErrors(p)))
    {
      var params := CollectParams(amount, phoneNumber, reference, description, callbackUrl, country);

      var outcome := ValidateCollectMoneyParams(params);
      if outcome.Fail? {
        return Failure(outcome.error);
      }

      params := params.(phoneNumber := Some(Phone.FormatPhoneNumber(phoneNumber.value)));

      r := client.Send(Query.CollectionsPath, POST, Some(params));
    }

    /** An absent or empty id fails before anything is sent; otherwise one GET of `/collections/{id}`. */
    method GetCollection(collectionId: Option<string>) returns (r: Result<Response, MarzPayError>)
      modifies client
      ensures Falsy(collectionId) ==>
        && client.log == old(client.log)
        && r == Failure(ValidationError(CollectionIdRequired, []))
      ensures !Falsy(collectionId) ==>
        && client.log == old(client.log) + [Request(CollectionPath(collectionId.value), GET, None)]
        && r == client.respond(Request(CollectionPath(collectionId.value), GET, None))
    {
      if Falsy(collectionId) {
        return Failure(ValidationError(CollectionIdRequired, []));
      }

      r := client.Send(CollectionPath(collectionId.value), GET, None);
    }

    /** One GET of `/collections`, carrying exactly the filters given, in the fixed order. */
    method GetCollections(page: Option<int> := None, limit: Option<int> := None, status: Option<string> := None,
                          fromDate: Option<string> := None, toDate: Option<string> := None)
      returns (r: Result<Response, MarzPayError>)
      modifies client
      ensures var path := Query.Endpoint(Query.Present(Query.Candidates(page, limit, status, fromDate, toDate)));
        && client.log == old(client.log) + [Request(path, GET, None)]
        && r == client.respond(Request(path, GET, None))
    {
      var endpoint := Query.CollectionsEndpoint(page, limit, status, fromDate, toDate);
      r := client.Send(endpoint, GET, None);
    }

    /** One GET of the fixed path `/collections/services`. */
    method GetServices() returns (r: Result<Response, MarzPayError>)
      modifies client
      ensures client.log == old(client.log) + [Request(ServicesPath, GET, None)]
      ensures r == client.respond(Request(ServicesPath, GET, None))
    {
      r := client.Send(ServicesPath, GET, None);
    }
  }

  /** Different ids are sent to different paths. */
  lemma CollectionPathInjective(a: string, b: string)
    requires CollectionPath(a) == CollectionPath(b)
    ensures a == b
  {
  }

  /** The id "services" is sent to the same path as the list of services. */
  lemma ServicesIdCollides()
    ensures CollectionPath("services") == ServicesPath
  {
  }

  /**
   * An integral amount within bounds together with a non-empty phone number
   * and reference always passes validation, and the number sent is the
   * normalised one: all digits, starting with 256.
   */
  lemma AcceptedCollectionPayload(n: int, phone: string, reference: string, p: CollectParams)
    requires MinAmount <= n <= MaxAmount && phone != "" && reference != ""
    requires p.amount == Some(IntVal(n)) && p.phoneNumber == Some(phone) && p.reference == Some(reference)
    ensures ValidParams(p) && ValidationErrors(p) == []
    ensures var sent := Payload(p).phoneNumber.value;
      Strings.AllDigits(sent) && Strings.HasPrefix(sent, Phone.CountryCode)
    ensures Payload(Payload(p)) == Payload(p)
  {
    Phone.FormatPhoneNumberIdempotent(phone);
  }

  /**
   * The phone number is only checked for presence: one made of spaces passes
   * validation, and what is sent is the bare country code.
   */
  lemma BlankPhoneSentAsCountryCode(p: CollectParams)
    requires ValidAmount(p.amount) && !Falsy(p.reference) && p.phoneNumber == Some("   ")
    ensures ValidParams(p)
    ensures Payload(p).phoneNumber == Some(Phone.CountryCode)
  {
    var blank := "   ";
    assert Phone.Digits(blank) == [] by {
      assert blank[1..] == "  " && blank[1..][1..] == " " && blank[1..][1..][1..] == "";
    }
    assert Phone.CountryCode + [] == Phone.CountryCode;
  }

  /** What one `collect_money` call sends: one POST when the parameters pass validation, nothing otherwise. */
  function Sent(p: CollectParams): (requests: seq<Request>)
    ensures |requests| <= 1
    ensures requests != [] <==> ValidParams(p)
    ensures ValidParams(p) ==> requests[0].path == Query.CollectionsPath && requests[0].httpMethod == POST
  {
    if ValidParams(p) then [Request(Query.CollectionsPath, POST, Some(Payload(p)))] else []
  }

  /**
   * Two collections issued one after the other through the same API are
   * sent independently: each adds what it sends on its own, whatever the
   * other one did.
   */
  method CollectTwice(api: CollectionsApi, first: CollectParams, second: CollectParams)
    returns (r1: Result<Response, MarzPayError>, r2: Result<Response, MarzPayError>)
    modifies api.client
    ensures api.client.log == old(api.client.log) + Sent(first) + Sent(second)
  {
    r1 := api.CollectMoney(first.amount, first.phoneNumber, first.reference,
                           first.description, first.callbackUrl, first.country);
    r2 := api.CollectMoney(second.amount, second.phoneNumber, second.reference,
                           second.description, second.callbackUrl, second.country);
  }
}
