/** The Flask routes of the back end (src/routes/whatsapp_gpt.py): the setup
    pipeline that creates an agent, and the field guards of the knowledge and
    messaging endpoints.

    Each handler is a function of the request body and of the outcomes of the
    service calls it makes; besides the response it returns the calls it made,
    in order. The client id the setup handler draws with `uuid4` is a
    parameter. */
module Routes {

  import opened Basics
  import opened N8n

  /** A request body: `request.get_json()` gave an object, or reading a field
      of it raised (no JSON body, or not an object), with the exception's text. */
  datatype Body<T> = Unparsed(error: string) | Parsed(value: T)

  /** The fields the setup handler reads; an absent field is the empty string. */
  datatype SetupRequest = SetupRequest(
    businessName: string,
    businessDescription: string,
    businessHours: string,
    contactInfo: string,
    knowledgeText: string)

  /** What `create_instance` of the WhatsApp gateway returned. */
  datatype InstanceOutcome =
    | InstanceFailed(error: string)
    | InstanceCreated(instanceId: string, qrCode: Option<string>)

  /** The outcomes of the calls the setup handler makes, in the order it makes
      them: the gateway instance, the n8n workflow, the webhook configuration,
      the knowledge upload and the workflow activation (each `success` flag). */
  datatype Services = Services(
    instance: InstanceOutcome,
    workflow: CreateResult,
    webhookOk: bool,
    knowledgeOk: bool,
    activationOk: bool)

  /** A call into a service. Knowledge from the setup form is stored with the
      metadata `business_name` and `source_type: setup_form`. */
  datatype Call =
    | CreateInstance(clientId: string, businessName: string)
    | CreateWorkflow(clientId: string, instanceId: string, businessName: string)
    | ConfigureWebhook(instanceName: string, webhookUrl: string)
    | ProcessKnowledge(clientId: string, content: string, businessName: string)
    | ActivateWorkflow(workflowId: Option<string>)

  /** The `data` of a completed setup. */
  datatype AgentSetup = AgentSetup(
    clientId: string,
    instanceId: string,
    workflowId: Option<string>,
    qrCode: Option<string>,
    webhookUrl: Option<string>,
    knowledgeProcessed: bool,
    workflowActive: bool)

  /** A response of the setup handler: an error with its HTTP status, or the
      completed setup (status 200). */
  datatype Response = Failure(status: int, error: string) | Completed(data: AgentSetup, message: string)

  /** The response and the calls that led to it, oldest first. */
  datatype Exchange = Exchange(response: Response, calls: seq<Call>)

  const InstanceErrorPrefix: string := "Failed to create WhatsApp instance: "
  const WorkflowErrorPrefix: string := "Failed to create workflow: "
  const SetupErrorPrefix: string := "Setup failed: "
  const SetupMessage: string := "WhatsApp GPT agent setup completed successfully"

  /** The position of each kind of call in the pipeline. */
  function Rank(c: Call): nat {
    match c
    case CreateInstance(_, _) => 0
    case CreateWorkflow(_, _, _) => 1
    case ConfigureWebhook(_, _) => 2
    case ProcessKnowledge(_, _, _) => 3
    case ActivateWorkflow(_) => 4
  }

  /** Every call comes later in the pipeline than the one before it: no call
      is repeated and none is out of order. */
  predicate InPipelineOrder(calls: seq<Call>) {
    forall i, j :: 0 <= i < j < |calls| ==> Rank(calls[i]) < Rank(calls[j])
  }

  /** A call of the kind at position `rank` was made. */
  predicate Made(calls: seq<Call>, rank: nat) {
    exists i :: 0 <= i < |calls| && Rank(calls[i]) == rank
  }

  /** The line `heading` + `value`, ended by a newline. */
  function Line(heading: string, value: string): string {
    heading + value + "\n"
  }

  /** The text uploaded to the knowledge base (whatsapp_gpt.py:80-89): a
      heading with the business's name, description, opening hours and
      contact, a blank line, and the free knowledge text under its own
      heading. */
  function KnowledgeDocument(r: SetupRequest): string {
    "\nInformações da Empresa:\n" +
    (Line("Nome: ", r.businessName) +
    (Line("Descrição: ", r.businessDescription) +
    (Line("Horário de Funcionamento: ", r.businessHours) +
    (Line("Contacto: ", r.contactInfo) +
    ("\n" + Line("Conhecimento Adicional:\n", r.knowledgeText))))))
  }

  /** Every field of the form appears in the uploaded text, each on its own
      labelled line, and the knowledge text follows its heading. */
  lemma KnowledgeDocumentMentions(r: SetupRequest)
    ensures Contains(KnowledgeDocument(r), Line("Nome: ", r.businessName))
    ensures Contains(KnowledgeDocument(r), Line("Descrição: ", r.businessDescription))
    ensures Contains(KnowledgeDocument(r), Line("Horário de Funcionamento: ", r.businessHours))
    ensures Contains(KnowledgeDocument(r), Line("Contacto: ", r.contactInfo))
    ensures Contains(KnowledgeDocument(r), Line("Conhecimento Adicional:\n", r.knowledgeText))
  {
    var head := "\nInformações da Empresa:\n";
    var name := Line("Nome: ", r.businessName);
    var description := Line("Descrição: ", r.businessDescription);
    var hours := Line("Horário de Funcionamento: ", r.businessHours);
    var contact := Line("Contacto: ", r.contactInfo);
    var knowledge := Line("Conhecimento Adicional:\n", r.knowledgeText);
    var s4 := "\n" + knowledge;
    var s3 := contact + s4;
    var s2 := hours + s3;
    var s1 := description + s2;
    var s0 := name + s1;
    ContainsPrefix(knowledge, "");
    assert knowledge + "" == knowledge;
    ContainsAfter("\n", knowledge, knowledge);
    ContainsAfter(contact, s4, knowledge);
    ContainsPrefix(contact, s4);
    ContainsAfter(hours, s3, knowledge);
    ContainsAfter(hours, s3, contact);
    ContainsPrefix(hours, s3);
    ContainsAfter(description, s2, knowledge);
    ContainsAfter(description, s2, contact);
    ContainsAfter(description, s2, hours);
    ContainsPrefix(description, s2);
    ContainsAfter(name, s1, knowledge);
    ContainsAfter(name, s1, contact);
    ContainsAfter(name, s1, hours);
    ContainsAfter(name, s1, description);
    ContainsPrefix(name, s1);
    ContainsAfter(head, s0, knowledge);
    ContainsAfter(head, s0, contact);
    ContainsAfter(head, s0, hours);
    ContainsAfter(head, s0, description);
    ContainsAfter(head, s0, name);
  }

  /** `setup_whatsapp_agent` (whatsapp_gpt.py:17-121): an unreadable body and
      a failed creation of the instance or of the workflow end the setup
      with status 500 and nothing called afterwards; otherwise the setup
      completes, whatever the webhook, knowledge and activation calls return. */
  function SetupWhatsAppAgent(body: Body<SetupRequest>, clientId: string, s: Services): (x: Exchange)
    ensures body.Unparsed? ==> x == Exchange(Failure(500, SetupErrorPrefix + body.error), [])
    ensures body.Parsed? && s.instance.InstanceFailed? ==>
      x == Exchange(Failure(500, InstanceErrorPrefix + s.instance.error), [CreateInstance(clientId, body.value.businessName)])
    ensures body.Parsed? && s.instance.InstanceCreated? && s.workflow.WorkflowFailed? ==>
      x == Exchange(Failure(500, WorkflowErrorPrefix + s.workflow.error),
                    [CreateInstance(clientId, body.value.businessName),
                     CreateWorkflow(clientId, s.instance.instanceId, body.value.businessName)])
    ensures x.response.Completed? <==> body.Parsed? && s.instance.InstanceCreated? && s.workflow.WorkflowCreated?
  {
    match body
    case Unparsed(error) => Exchange(Failure(500, SetupErrorPrefix + error), [])
    case Parsed(r) =>
      var c0 := [CreateInstance(clientId, r.businessName)];
      match s.instance
      case InstanceFailed(error) => Exchange(Failure(500, InstanceErrorPrefix + error), c0)
      case InstanceCreated(instanceId, qrCode) =>
        var c1 := c0 + [CreateWorkflow(clientId, instanceId, r.businessName)];
        match s.workflow
        case WorkflowFailed(error, _) => Exchange(Failure(500, WorkflowErrorPrefix + error), c1)
        case WorkflowCreated(workflow, _) =>
          var webhookUrl := workflow.webhookUrl;
          var c2 := c1 + (if Truthy(webhookUrl) then [ConfigureWebhook(instanceId, webhookUrl.value)] else []);
          var c3 := c2 + (if r.knowledgeText != "" then [ProcessKnowledge(clientId, KnowledgeDocument(r), r.businessName)] else []);
          var c4 := c3 + [ActivateWorkflow(workflow.workflowId)];
          var data := AgentSetup(clientId, instanceId, workflow.workflowId, qrCode, webhookUrl,
                                 r.knowledgeText != "" && s.knowledgeOk, s.activationOk);
          Exchange(Completed(data, SetupMessage), c4)
  }

  /** The calls follow the pipeline (whatsapp_gpt.py:36-101): the instance
      first, then the workflow, the webhook, the knowledge and the activation,
      each at most once and none out of order. */
  lemma SetupCallOrder(body: Body<SetupRequest>, clientId: string, s: Services)
    ensures InPipelineOrder(SetupWhatsAppAgent(body, clientId, s).calls)
    ensures body.Parsed? ==>
      var calls := SetupWhatsAppAgent(body, clientId, s).calls;
      |calls| > 0 && calls[0] == CreateInstance(clientId, body.value.businessName)
  {
    if SetupWhatsAppAgent(body, clientId, s).response.Completed? {
      CompletedCalls(body.value, clientId, s);
    }
  }

  /** A completed setup reports the instance's id and QR code, the
      workflow's id and webhook URL, whether knowledge was stored, and the
      activation's flag; its last call activates the workflow
      (whatsapp_gpt.py:47-48, 63-64, 100-115). */
  lemma SetupCompletedData(r: SetupRequest, clientId: string, s: Services)
    requires s.instance.InstanceCreated? && s.workflow.WorkflowCreated?
    ensures
      var x := SetupWhatsAppAgent(Parsed(r), clientId, s);
      && x.response.Completed?
      && x.response.message == SetupMessage
      && x.response.data == AgentSetup(clientId, s.instance.instanceId, s.workflow.workflow.workflowId,
           s.instance.qrCode, s.workflow.workflow.webhookUrl, r.knowledgeText != "" && s.knowledgeOk, s.activationOk)
      && x.calls[|x.calls| - 1] == ActivateWorkflow(s.workflow.workflow.workflowId)
  {
  }

  /** The calls of a completed setup: both creations, the webhook when the
      URL is non-empty, the knowledge when the text is non-empty, and the
      activation. */
  lemma CompletedCalls(r: SetupRequest, clientId: string, s: Services)
    requires s.instance.InstanceCreated? && s.workflow.WorkflowCreated?
    ensures SetupWhatsAppAgent(Parsed(r), clientId, s).calls ==
      [CreateInstance(clientId, r.businessName), CreateWorkflow(clientId, s.instance.instanceId, r.businessName)] +
      (if Truthy(s.workflow.workflow.webhookUrl)
       then [ConfigureWebhook(s.instance.instanceId, s.workflow.workflow.webhookUrl.value)] else []) +
      (if r.knowledgeText != "" then [ProcessKnowledge(clientId, KnowledgeDocument(r), r.businessName)] else []) +
      [ActivateWorkflow(s.workflow.workflow.workflowId)]
  {
  }

  /** The webhook is configured, with the workflow's URL, exactly when the
      setup gets that far and the URL is non-empty (whatsapp_gpt.py:67-71). */
  lemma SetupWebhookCall(body: Body<SetupRequest>, clientId: string, s: Services)
    ensures
      var x := SetupWhatsAppAgent(body, clientId, s);
      Made(x.calls, 2) <==> x.response.Completed? && Truthy(s.workflow.workflow.webhookUrl)
    ensures
      var x := SetupWhatsAppAgent(body, clientId, s);
      forall i :: 0 <= i < |x.calls| && x.calls[i].ConfigureWebhook? ==>
        x.calls[i] == ConfigureWebhook(s.instance.instanceId, s.workflow.workflow.webhookUrl.value)
  {
    var x := SetupWhatsAppAgent(body, clientId, s);
    if x.response.Completed? {
      CompletedCalls(body.value, clientId, s);
      if Truthy(s.workflow.workflow.webhookUrl) {
        assert Rank(x.calls[2]) == 2;
      }
    }
  }

  /** Knowledge is uploaded, as `KnowledgeDocument`, exactly when the setup
      gets that far and the knowledge text is non-empty (whatsapp_gpt.py:77-98). */
  lemma SetupKnowledgeCall(body: Body<SetupRequest>, clientId: string, s: Services)
    ensures
      var x := SetupWhatsAppAgent(body, clientId, s);
      Made(x.calls, 3) <==> x.response.Completed? && body.value.knowledgeText != ""
    ensures
      var x := SetupWhatsAppAgent(body, clientId, s);
      forall i :: 0 <= i < |x.calls| && x.calls[i].ProcessKnowledge? ==>
        x.calls[i] == ProcessKnowledge(clientId, KnowledgeDocument(body.value), body.value.businessName)
  {
    var x := SetupWhatsAppAgent(body, clientId, s);
    if x.response.Completed? {
      CompletedCalls(body.value, clientId, s);
      if body.value.knowledgeText != "" {
        assert Rank(x.calls[|x.calls| - 2]) == 3;
      }
    }
  }

  /** A failed webhook configuration only logs a warning: the response and
      the calls are those of a successful one (whatsapp_gpt.py:73-74). */
  lemma WebhookOutcomeIgnored(body: Body<SetupRequest>, clientId: string, s: Services)
    ensures SetupWhatsAppAgent(body, clientId, s.(webhookOk := false)) == SetupWhatsAppAgent(body, clientId, s.(webhookOk := true))
  {
  }

  /** How a guarded endpoint answers: it rejects the request with a status and
      an error before calling anything, or it hands the request to one service
      call and returns that service's reply as it is. */
  datatype Outcome = Rejected(status: int, error: string) | Delegated(call: ServiceCall)

  /** The service calls of the guarded endpoints. */
  datatype ServiceCall =
    | StoreText(clientId: string, content: string, metadata: map<string, string>)
    | QueryKnowledgeBase(clientId: string, query: string, topK: int)
    | SendMessage(instanceName: string, number: string, message: string)

  /** The guard the three endpoints share: both required fields present and
      non-empty. */
  predicate BothPresent(first: Option<string>, second: Option<string>) {
    Truthy(first) && Truthy(second)
  }

  /** The fields of an `add-knowledge` request; an absent field is `None`. */
  datatype KnowledgeRequest = KnowledgeRequest(clientId: Option<string>, content: Option<string>, metadata: Option<map<string, string>>)

  /** The fields of a `query-knowledge` request. */
  datatype QueryRequest = QueryRequest(clientId: Option<string>, query: Option<string>, topK: Option<int>)

  /** The fields of a `send-test-message` request. */
  datatype TestMessageRequest = TestMessageRequest(instanceId: Option<string>, number: Option<string>, message: Option<string>)

  const DefaultTopK: int := 5
  const DefaultTestMessage: string := "Olá! Este é um teste do seu agente WhatsApp GPT. 🤖"

  /** `add_knowledge` (whatsapp_gpt.py:151-180): a client id and a content are
      required; the metadata defaults to none. */
  function AddKnowledge(body: Body<KnowledgeRequest>): (o: Outcome)
    ensures body.Unparsed? ==> o == Rejected(500, body.error)
    ensures body.Parsed? && !BothPresent(body.value.clientId, body.value.content) ==>
      o == Rejected(400, "client_id and content are required")
    ensures body.Parsed? && BothPresent(body.value.clientId, body.value.content) ==>
      && o.Delegated?
      && o.call.StoreText?
      && o.call.clientId == body.value.clientId.value && o.call.content == body.value.content.value
      && o.call.metadata == (if body.value.metadata.Some? then body.value.metadata.value else map[])
  {
    match body
    case Unparsed(error) => Rejected(500, error)
    case Parsed(r) =>
      if !BothPresent(r.clientId, r.content) then Rejected(400, "client_id and content are required")
      else Delegated(StoreText(r.clientId.value, r.content.value, if r.metadata.Some? then r.metadata.value else map[]))
  }

  /** `query_knowledge` (whatsapp_gpt.py:182-211): a client id and a query are
      required; `top_k` defaults to 5. */
  function QueryKnowledge(body: Body<QueryRequest>): (o: Outcome)
    ensures body.Unparsed? ==> o == Rejected(500, body.error)
    ensures body.Parsed? && !BothPresent(body.value.clientId, body.value.query) ==>
      o == Rejected(400, "client_id and query are required")
    ensures body.Parsed? && BothPresent(body.value.clientId, body.value.query) ==>
      && o.Delegated?
      && o.call.QueryKnowledgeBase?
      && o.call.clientId == body.value.clientId.value && o.call.query == body.value.query.value
      && o.call.topK == (if body.value.topK.Some? then body.value.topK.value else DefaultTopK)
  {
    match body
    case Unparsed(error) => Rejected(500, error)
    case Parsed(r) =>
      if !BothPresent(r.clientId, r.query) then Rejected(400, "client_id and query are required")
      else Delegated(QueryKnowledgeBase(r.clientId.value, r.query.value, if r.topK.Some? then r.topK.value else DefaultTopK))
  }

  /** `send_test_message` (whatsapp_gpt.py:227-256): an instance id and a
      number are required; the message defaults to a Portuguese greeting. */
  function SendTestMessage(body: Body<TestMessageRequest>): (o: Outcome)
    ensures body.Unparsed? ==> o == Rejected(500, body.error)
    ensures body.Parsed? && !BothPresent(body.value.instanceId, body.value.number) ==>
      o == Rejected(400, "instance_id and number are required")
    ensures body.Parsed? && BothPresent(body.value.instanceId, body.value.number) ==>
      && o.Delegated?
      && o.call.SendMessage?
      && o.call.instanceName == body.value.instanceId.value && o.call.number == body.value.number.value
      && o.call.message == (if body.value.message.Some? then body.value.message.value else DefaultTestMessage)
  {
    match body
    case Unparsed(error) => Rejected(500, error)
    case Parsed(r) =>
      if !BothPresent(r.instanceId, r.number) then Rejected(400, "instance_id and number are required")
      else Delegated(SendMessage(r.instanceId.value, r.number.value, if r.message.Some? then r.message.value else DefaultTestMessage))
  }
}
