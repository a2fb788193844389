/** The custom domain operations of toastcloud/customDomains.go. As in the
    Toaster module, `send` stands for the API client call. */
module CustomDomains {
  import opened Base
  import opened Models
  import opened Requests
  import opened Methods
  import opened Responses

  const NoIdToUpdate: string := "you did not provide the ID of the custom domain to update"
  const NoIdToGet: string := "you did not provide the ID of the custom domain to get"
  const NoIdToDelete: string := "you did not provide the ID of the custom domain to delete"

  /** The fields the create, update and get responses share besides
      `success`: the domain, the ownership TXT record and the CNAME records. */
  datatype DomainDetails = DomainDetails(
    customDomain: Option<CustomDomain>,
    txtRecordName: string,
    txtRecordValue: string,
    cnamesRecord: map<string, string>)

  datatype CreateCustomDomainInput = CreateCustomDomainInput(rootDomain: string, domains: seq<string>, linkedToaster: map<string, string>)

  datatype CreateCustomDomainOutput = CreateCustomDomainOutput(
    customDomain: Option<CustomDomain>,
    txtRecordName: string,
    txtRecordValue: string,
    cnamesRecord: map<string, string>,
    verified: bool)

  /** CreateCustomDomain sends its input as it is; the output's `verified`
      is never set from the response, so it is always false. */
  function CreateCustomDomain(input: CreateCustomDomainInput, send: Call<CreateCustomDomainInput> -> Reply<Envelope<DomainDetails>>)
    : (r: Result<CreateCustomDomainOutput>)
    ensures var reply := send(Invoke(AuthedPost, "/customdomain", Some(input), NoUpload));
      && (r.Ok? <==> reply.Decoded? && reply.value.success)
      && (r.Ok? ==> var d := reply.value.payload;
            r.value == CreateCustomDomainOutput(d.customDomain, d.txtRecordName, d.txtRecordValue, d.cnamesRecord, false))
      && (r.Fail? ==> r.err == Check(reply).err)
  {
    var res := Check(send(Invoke(AuthedPost, "/customdomain", Some(input), NoUpload)));
    Output(res, (d: DomainDetails) => CreateCustomDomainOutput(d.customDomain, d.txtRecordName, d.txtRecordValue, d.cnamesRecord, false))
  }

  datatype VerifyCustomDomainInput = VerifyCustomDomainInput(id: string)
  datatype VerifyCustomDomainOutput = VerifyCustomDomainOutput(customDomain: Option<CustomDomain>)

  /** VerifyCustomDomain: an authenticated POST with no body. Its missing-ID
      message is the one UpdateCustomDomain uses. */
  function VerifyCustomDomain(input: VerifyCustomDomainInput, send: Call<()> -> Reply<Envelope<Option<CustomDomain>>>)
    : (r: Result<VerifyCustomDomainOutput>)
    ensures input.id == "" ==> r == Fail(Failure(NoIdToUpdate))
    ensures input.id != "" ==>
      Relays(r, Check(send(Invoke(AuthedPost, "/customdomain/verify/" + input.id, None, NoUpload))),
             (d: Option<CustomDomain>) => VerifyCustomDomainOutput(d))
  {
    if input.id == "" then Fail(Failure(NoIdToUpdate))
    else
      var res := Check(send(Invoke(AuthedPost, "/customdomain/verify/" + input.id, None, NoUpload)));
      Output(res, (d: Option<CustomDomain>) => VerifyCustomDomainOutput(d))
  }

  datatype UpdateCustomDomainInput = UpdateCustomDomainInput(id: string, domains: seq<string>, linkedToaster: map<string, string>)

  /** UpdateCustomDomainRequest: the input without its ID. */
  datatype UpdateCustomDomainRequest = UpdateCustomDomainRequest(domains: seq<string>, linkedToaster: map<string, string>)

  /** The request UpdateCustomDomain sends; the ID goes into the URL. */
  function UpdateRequest(input: UpdateCustomDomainInput): (req: UpdateCustomDomainRequest)
    ensures req.domains == input.domains && req.linkedToaster == input.linkedToaster
  {
    UpdateCustomDomainRequest(input.domains, input.linkedToaster)
  }

  /** UpdateCustomDomain: the output is the details as the response holds
      them, a missing domain included. */
  function UpdateCustomDomain(input: UpdateCustomDomainInput, send: Call<UpdateCustomDomainRequest> -> Reply<Envelope<DomainDetails>>)
    : (r: Result<DomainDetails>)
    ensures input.id == "" ==> r == Fail(Failure(NoIdToUpdate))
    ensures input.id != "" ==> r == Check(send(Invoke(AuthedPut, "/customdomain/" + input.id, Some(UpdateRequest(input)), NoUpload)))
  {
    if input.id == "" then Fail(Failure(NoIdToUpdate))
    else Check(send(Invoke(AuthedPut, "/customdomain/" + input.id, Some(UpdateRequest(input)), NoUpload)))
  }

  datatype ListCustomDomainsOutput = ListCustomDomainsOutput(customDomains: seq<CustomDomain>)

  function ListCustomDomains(send: Call<()> -> Reply<Envelope<seq<CustomDomain>>>): (r: Result<ListCustomDomainsOutput>)
    ensures Relays(r, Check(send(Invoke(AuthedGet, "/customdomain/list", None, NoUpload))),
                   (l: seq<CustomDomain>) => ListCustomDomainsOutput(l))
  {
    Output(Check(send(Invoke(AuthedGet, "/customdomain/list", None, NoUpload))), (l: seq<CustomDomain>) => ListCustomDomainsOutput(l))
  }

  datatype GetCustomDomainInput = GetCustomDomainInput(id: string)

  function GetCustomDomain(input: GetCustomDomainInput, send: Call<()> -> Reply<Envelope<DomainDetails>>): (r: Result<DomainDetails>)
    ensures input.id == "" ==> r == Fail(Failure(NoIdToGet))
    ensures input.id != "" ==> r == Check(send(Invoke(AuthedGet, "/customdomain/" + input.id, None, NoUpload)))
  {
    if input.id == "" then Fail(Failure(NoIdToGet))
    else Check(send(Invoke(AuthedGet, "/customdomain/" + input.id, None, NoUpload)))
  }

  datatype DeleteCustomDomainInput = DeleteCustomDomainInput(id: string)
  datatype DeleteCustomDomainOutput = DeleteCustomDomainOutput

  function DeleteCustomDomain(input: DeleteCustomDomainInput, send: Call<()> -> Reply<Envelope<()>>): (r: Result<DeleteCustomDomainOutput>)
    ensures input.id == "" ==> r == Fail(Failure(NoIdToDelete))
    ensures input.id != "" ==>
      Relays(r, Check(send(Invoke(AuthedDelete, "/customdomain/" + input.id, None, NoUpload))), (u: ()) => DeleteCustomDomainOutput)
  {
    if input.id == "" then Fail(Failure(NoIdToDelete))
    else Output(Check(send(Invoke(AuthedDelete, "/customdomain/" + input.id, None, NoUpload))), (u: ()) => DeleteCustomDomainOutput)
  }

  /** Get, update and delete address the same resource URL with different
      verbs; verify is a POST below it. The ID is not escaped, so the ID
      "list" makes GetCustomDomain request what ListCustomDomains requests. */
  lemma DomainURLs(id: string)
    requires id != ""
    ensures var get, put, del := Invoke<()>(AuthedGet, "/customdomain/" + id, None, NoUpload),
                                 Invoke<()>(AuthedPut, "/customdomain/" + id, None, NoUpload),
                                 Invoke<()>(AuthedDelete, "/customdomain/" + id, None, NoUpload);
      && get.url == put.url == del.url
      && get.verb == "GET" && put.verb == "PUT" && del.verb == "DELETE"
      && get.authed && put.authed && del.authed
    ensures id == "list" ==> Invoke<()>(AuthedGet, "/customdomain/" + id, None, NoUpload) == Invoke(AuthedGet, "/customdomain/list", None, NoUpload)
  {
  }

  /** None of the custom domain operations checks that the response held a
      domain: whatever details a successful reply holds, a missing domain
      included, are returned as a success. */
  lemma NoPayloadCheck(id: string, input: CreateCustomDomainInput,
                       get: Call<()> -> Reply<Envelope<DomainDetails>>,
                       verify: Call<()> -> Reply<Envelope<Option<CustomDomain>>>,
                       create: Call<CreateCustomDomainInput> -> Reply<Envelope<DomainDetails>>)
    requires id != ""
    ensures var reply := get(Invoke(AuthedGet, "/customdomain/" + id, None, NoUpload));
      reply.Decoded? && reply.value.success ==>
      GetCustomDomain(GetCustomDomainInput(id), get) == Ok(reply.value.payload)
    ensures var reply := verify(Invoke(AuthedPost, "/customdomain/verify/" + id, None, NoUpload));
      reply.Decoded? && reply.value.success ==>
      VerifyCustomDomain(VerifyCustomDomainInput(id), verify) == Ok(VerifyCustomDomainOutput(reply.value.payload))
    ensures var reply := create(Invoke(AuthedPost, "/customdomain", Some(input), NoUpload));
      reply.Decoded? && reply.value.success ==>
      var d := reply.value.payload;
      CreateCustomDomain(input, create) == Ok(CreateCustomDomainOutput(d.customDomain, d.txtRecordName, d.txtRecordValue, d.cnamesRecord, false))
  {
  }

  /** The two operations that report a missing ID as "to update". */
  lemma MissingIdMessages(send1: Call<()> -> Reply<Envelope<Option<CustomDomain>>>, send2: Call<UpdateCustomDomainRequest> -> Reply<Envelope<DomainDetails>>)
    ensures VerifyCustomDomain(VerifyCustomDomainInput(""), send1).err
            == UpdateCustomDomain(UpdateCustomDomainInput("", [], map[]), send2).err
  {
  }
}
