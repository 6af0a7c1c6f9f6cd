// examples/express-bridge/src/ServiceResponse.ts: a four-builder variant of the
// response helpers in which an absent body defaults to the description.
module ExpressResponse {
  import opened JsValues
  import HttpResponse

  /** `{ status, body }`: exactly these two fields. */
  datatype ServiceResponse = ServiceResponse(status: int, body: Value)

  /** `createResponse(status, description, body)`: only `undefined` is replaced; null is kept. */
  function CreateResponse(status: int, description: string, body: Value): (r: ServiceResponse)
    ensures r.status == status
    ensures body == Undefined ==> r.body == Str(description)
    ensures body != Undefined ==> r.body == body
  {
    ServiceResponse(status, if body == Undefined then Str(description) else body)
  }

  /** `ServiceResponse.ok(body)` */
  function Ok(body: Value): (r: ServiceResponse)
    ensures r.status == 200
    ensures r.body == if body == Undefined then Str("Ok") else body
  {
    CreateResponse(200, "Ok", body)
  }

  /** `ServiceResponse.badRequest(body)` */
  function BadRequest(body: Value): (r: ServiceResponse)
    ensures r.status == 400
    ensures r.body == if body == Undefined then Str("Bad Request") else body
  {
    CreateResponse(400, "Bad Request", body)
  }

  /** `ServiceResponse.unauthorized(body)` */
  function Unauthorized(body: Value): (r: ServiceResponse)
    ensures r.status == 401
    ensures r.body == if body == Undefined then Str("Unauthorized") else body
  {
    CreateResponse(401, "Unauthorized", body)
  }

  /** `ServiceResponse.error(body)` */
  function Error(body: Value): (r: ServiceResponse)
    ensures r.status == 500
    ensures r.body == if body == Undefined then Str("Internal Server Error") else body
  {
    CreateResponse(500, "Internal Server Error", body)
  }

  /** Each builder's default body is the package table's reason phrase for its status. */
  lemma DefaultBodiesArePhrases()
    ensures Ok(Undefined).body == Str(HttpResponse.GetResponseMessage(Ok(Undefined).status))
    ensures BadRequest(Undefined).body == Str(HttpResponse.GetResponseMessage(BadRequest(Undefined).status))
    ensures Unauthorized(Undefined).body == Str(HttpResponse.GetResponseMessage(Unauthorized(Undefined).status))
    ensures Error(Undefined).body == Str(HttpResponse.GetResponseMessage(Error(Undefined).status))
  {
    assert HttpResponse.KnownFactory(200) == Some(HttpResponse.Ok);
    assert HttpResponse.KnownFactory(400) == Some(HttpResponse.BadRequest);
    assert HttpResponse.KnownFactory(401) == Some(HttpResponse.Unauthorized);
    assert HttpResponse.KnownFactory(500) == Some(HttpResponse.Error);
  }

  /** Each builder uses the status of the package's factory of the same name, whatever the body. */
  lemma BuildersMatchFactories(body: Value)
    ensures Ok(body).status == HttpResponse.CallFactory(HttpResponse.Ok, body).status
    ensures BadRequest(body).status == HttpResponse.CallFactory(HttpResponse.BadRequest, body).status
    ensures Unauthorized(body).status == HttpResponse.CallFactory(HttpResponse.Unauthorized, body).status
    ensures Error(body).status == HttpResponse.CallFactory(HttpResponse.Error, body).status
  {
  }
}
