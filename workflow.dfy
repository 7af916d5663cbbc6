/** The n8n side of the back end (src/services/n8n_manager.py, class
    N8nFlowManager): the workflow every client gets, its creation through the
    n8n REST API, and the search for the URL of its webhook.

    The HTTP exchanges are parameters: the outcome of the POST that creates a
    workflow and of the GET that reads it back. The UUID the template draws
    for its webhook is a parameter too. */
module N8n {

  import opened Basics

  /** The node type n8n gives to an incoming HTTP webhook. */
  const WebhookNodeType: string := "n8n-nodes-base.webhook"

  /** A node of a workflow, as far as the manager reads it: a webhook node
      may carry a `webhookId` and a `parameters.path`; the other parameters
      (code, prompts, request settings) are not modelled. */
  datatype Node = Node(
    id: string,
    name: string,
    nodeType: string,
    typeVersion: nat,
    x: int,
    y: int,
    webhookId: Option<string>,
    path: Option<string>)

  /** One edge of the graph: the target node by name, its input type and index. */
  datatype Link = Link(node: string, linkType: string, index: nat)

  datatype Tag = Tag(name: string, id: string)

  /** A workflow document. `connections` maps a source node's name to its
      outputs by kind (`"main"`), each output a list of links. */
  datatype Workflow = Workflow(
    name: string,
    nodes: seq<Node>,
    connections: map<string, map<string, seq<seq<Link>>>>,
    active: bool,
    timezone: string,
    tags: seq<Tag>)

  /** The names of the template's nodes, in the order messages flow through them. */
  const Pipeline: seq<string> := [
    "Webhook Trigger", "Message Filter", "Extract Message",
    "Query Knowledge Base", "Generate AI Response", "Send WhatsApp Reply"]

  /** The names of the nodes of a workflow. */
  function NodeNames(nodes: seq<Node>): set<string> {
    set i | 0 <= i < |nodes| :: nodes[i].name
  }

  /** Every connection starts at a node of the workflow and every link ends at one. */
  ghost predicate WellFormed(w: Workflow) {
    && (forall src :: src in w.connections ==> src in NodeNames(w.nodes))
    && (forall src, kind, i, j ::
          src in w.connections && kind in w.connections[src] &&
          0 <= i < |w.connections[src][kind]| && 0 <= j < |w.connections[src][kind][i]| ==>
          w.connections[src][kind][i][j].node in NodeNames(w.nodes))
  }

  /** The number of nodes of type `t`. */
  function CountOfType(nodes: seq<Node>, t: string): nat {
    if nodes == [] then 0 else (if nodes[0].nodeType == t then 1 else 0) + CountOfType(nodes[1..], t)
  }

  /** A single `main` output holding one link to input 0 of `target`. */
  function MainTo(target: string): map<string, seq<seq<Link>>> {
    map["main" := [[Link(target, "main", 0)]]]
  }

  /** The names in `order` are pairwise distinct. */
  predicate Distinct(order: seq<string>) {
    forall i, j :: 0 <= i < j < |order| ==> order[i] != order[j]
  }

  /** The names of `order` as a set. */
  function Members(order: seq<string>): set<string> {
    set i | 0 <= i < |order| :: order[i]
  }

  /** The workflow is the linear chain `order`: each node appears once in it,
      each node but the last has exactly one link, to the next one, and the
      last has none. */
  ghost predicate LinearChain(w: Workflow, order: seq<string>) {
    && |order| > 0
    && Distinct(order)
    && NodeNames(w.nodes) == Members(order)
    && w.connections.Keys == Members(order[..|order| - 1])
    && (forall i :: 0 <= i < |order| - 1 ==> w.connections[order[i]] == MainTo(order[i + 1]))
  }

  /** The connections that join the names of `order` one after the other:
      each name but the last has a single `main` link to the next. */
  function Chain(order: seq<string>): (c: map<string, map<string, seq<seq<Link>>>>)
    requires Distinct(order)
    ensures |order| > 0 ==> c.Keys == Members(order[..|order| - 1])
    ensures |order| == 0 ==> c == map[]
    ensures forall i :: 0 <= i < |order| - 1 ==> c[order[i]] == MainTo(order[i + 1])
    decreases |order|
  {
    if |order| < 2 then map[]
    else
      MembersOfInit(order);
      Chain(order[1..])[order[0] := MainTo(order[1])]
  }

  /** Dropping the last name of `order` leaves its first name and the
      remaining names of its tail. */
  lemma MembersOfInit(order: seq<string>)
    requires |order| >= 2
    ensures Members(order[..|order| - 1]) == {order[0]} + Members(order[1..][..|order| - 2])
  {
    var init := order[..|order| - 1];
    var tail := order[1..][..|order| - 2];
    assert init == [order[0]] + tail;
    forall x | x in Members(init) ensures x in {order[0]} + Members(tail) {
      var i :| 0 <= i < |init| && init[i] == x;
      if i > 0 { assert tail[i - 1] == x; }
    }
    assert init[0] == order[0];
    forall x | x in Members(tail) ensures x in Members(init) {
      var i :| 0 <= i < |tail| && tail[i] == x;
      assert init[i + 1] == x;
    }
  }

  /** A chain is well formed once its names are the nodes' names. */
  lemma ChainWellFormed(w: Workflow, order: seq<string>)
    requires LinearChain(w, order)
    ensures WellFormed(w)
  {
    forall src | src in w.connections ensures src in NodeNames(w.nodes) {
      var i :| 0 <= i < |order| - 1 && order[..|order| - 1][i] == src;
      assert order[i] in Members(order);
    }
    forall src, kind, i, j |
      src in w.connections && kind in w.connections[src] &&
      0 <= i < |w.connections[src][kind]| && 0 <= j < |w.connections[src][kind][i]|
      ensures w.connections[src][kind][i][j].node in NodeNames(w.nodes)
    {
      var k :| 0 <= k < |order| - 1 && order[..|order| - 1][k] == src;
      assert w.connections[src][kind][i][j].node == order[k + 1];
      assert order[k + 1] in Members(order);
    }
  }

  /** The names of the nodes `src` links to, over all its outputs. */
  function Successors(w: Workflow, src: string): set<string> {
    if src !in w.connections then {}
    else
      var outs: map<string, seq<seq<Link>>> := w.connections[src];
      set kind: string, i: int, j: int | kind in outs && 0 <= i < |outs[kind]| && 0 <= j < |outs[kind][i]| :: outs[kind][i][j].node
  }

  /** A node whose only output is `MainTo(t)` has the single successor `t`. */
  lemma SuccessorsOfMainTo(w: Workflow, src: string, t: string)
    requires src in w.connections && w.connections[src] == MainTo(t)
    ensures Successors(w, src) == {t}
  {
    var outs: map<string, seq<seq<Link>>> := w.connections[src];
    assert outs["main"][0][0].node == t;
  }

  /** `p` follows links: each name after the first is a successor of the one before. */
  ghost predicate IsWalk(w: Workflow, p: seq<string>) {
    forall k :: 0 <= k < |p| - 1 ==> p[k + 1] in Successors(w, p[k])
  }

  /** The last name of a linear chain has no outgoing connection. */
  lemma LastHasNoLinks(w: Workflow, order: seq<string>)
    requires LinearChain(w, order)
    ensures order[|order| - 1] !in w.connections
  {
    var init := order[..|order| - 1];
    assert forall i :: 0 <= i < |init| ==> init[i] != order[|order| - 1];
  }

  /** In a linear chain every walk from the `s`-th name runs along `order`
      from there, so it never comes back to a node: the graph has neither
      branches nor cycles. */
  lemma {:induction false} ChainWalks(w: Workflow, order: seq<string>, p: seq<string>, s: nat)
    requires LinearChain(w, order)
    requires IsWalk(w, p) && |p| > 0 && s < |order| && p[0] == order[s]
    ensures s + |p| <= |order|
    ensures forall k :: 0 <= k < |p| ==> p[k] == order[s + k]
    ensures Distinct(p)
    decreases |p|
  {
    if |p| > 1 {
      LastHasNoLinks(w, order);
      assert p[1] in Successors(w, p[0]);
      assert s < |order| - 1;
      assert w.connections[order[s]] == MainTo(order[s + 1]);
      SuccessorsOfMainTo(w, order[s], order[s + 1]);
      ChainWalks(w, order, p[1..], s + 1);
      assert forall k :: 1 <= k < |p| ==> p[k] == p[1..][k - 1];
    }
  }

  /** Nodes listed in the order of `order` have exactly its names. */
  lemma NamesInOrder(nodes: seq<Node>, order: seq<string>)
    requires |nodes| == |order|
    requires forall i :: 0 <= i < |nodes| ==> nodes[i].name == order[i]
    ensures NodeNames(nodes) == Members(order)
  {
  }

  /** The entry node: the webhook on the path `whatsapp-webhook`, with the
      UUID drawn for it as its `webhookId` (n8n_manager.py:45-56). */
  function WebhookTrigger(webhookUuid: string): Node {
    Node("webhook-trigger", Pipeline[0], WebhookNodeType, 1, 240, 300, Some(webhookUuid), Some("whatsapp-webhook"))
  }

  /** The five nodes after the trigger: the event filter, the code that
      extracts the message, the knowledge-base query, the model call and the
      reply sent back through the WhatsApp gateway (n8n_manager.py:57-178). */
  const ProcessingNodes: seq<Node> := [
    Node("message-filter", "Message Filter", "n8n-nodes-base.if", 1, 460, 300, None, None),
    Node("extract-message", "Extract Message", "n8n-nodes-base.code", 2, 680, 300, None, None),
    Node("query-knowledge-base", "Query Knowledge Base", "n8n-nodes-base.httpRequest", 4, 900, 300, None, None),
    Node("generate-ai-response", "Generate AI Response", "@n8n/n8n-nodes-langchain.openAi", 1, 1120, 300, None, None),
    Node("send-whatsapp-reply", "Send WhatsApp Reply", "n8n-nodes-base.httpRequest", 4, 1340, 300, None, None)]

  /** `get_workflow_template` (n8n_manager.py:35-249): the webhook trigger
      followed by the five processing nodes, the connections that join them in
      that order, inactive, on the Maputo time zone, with one tag. The five
      connection entries (n8n_manager.py:180-236) are each node's link to the
      next, which is `Chain(Pipeline)`. */
  function GetWorkflowTemplate(webhookUuid: string): (w: Workflow)
    ensures !w.active
    ensures |w.nodes| == |Pipeline| && w.nodes[0] == WebhookTrigger(webhookUuid)
    ensures w.nodes[1..] == ProcessingNodes
  {
    var nodes := [WebhookTrigger(webhookUuid)] + ProcessingNodes;
    assert nodes[1..] == ProcessingNodes;
    Workflow("WhatsApp GPT Agent Template", nodes, Chain(Pipeline), false, "Africa/Maputo",
             [Tag("WhatsApp GPT", "whatsapp-gpt")])
  }

  /** The processing nodes carry the names of the pipeline after the trigger,
      and none of them is a webhook. */
  lemma ProcessingNodesShape()
    ensures forall i :: 0 <= i < |ProcessingNodes| ==> ProcessingNodes[i].name == Pipeline[i + 1]
    ensures CountOfType(ProcessingNodes, WebhookNodeType) == 0
  {
  }

  /** The template holds exactly one webhook node, its first, which carries
      the drawn UUID and the path `whatsapp-webhook` (n8n_manager.py:47-55). */
  lemma TemplateHasOneWebhook(webhookUuid: string)
    ensures CountOfType(GetWorkflowTemplate(webhookUuid).nodes, WebhookNodeType) == 1
    ensures GetWorkflowTemplate(webhookUuid).nodes[0].nodeType == WebhookNodeType
    ensures GetWorkflowTemplate(webhookUuid).nodes[0].webhookId == Some(webhookUuid)
    ensures GetWorkflowTemplate(webhookUuid).nodes[0].path == Some("whatsapp-webhook")
  {
    ProcessingNodesShape();
  }

  /** The names of the pipeline are pairwise distinct. */
  lemma PipelineDistinct()
    ensures Distinct(Pipeline)
  {
  }

  /** The template's nodes are named after the pipeline. */
  lemma TemplateNames(webhookUuid: string)
    ensures NodeNames(GetWorkflowTemplate(webhookUuid).nodes) == Members(Pipeline)
  {
    var w := GetWorkflowTemplate(webhookUuid);
    ProcessingNodesShape();
    assert w.nodes == [w.nodes[0]] + w.nodes[1..];
    NamesAfterFirst(w.nodes[0], w.nodes[1..], Pipeline);
  }

  /** A first node named like the first name, followed by nodes named like the
      rest, has exactly the names of `order`. */
  lemma NamesAfterFirst(first: Node, rest: seq<Node>, order: seq<string>)
    requires |order| == |rest| + 1 && first.name == order[0]
    requires forall i :: 0 <= i < |rest| ==> rest[i].name == order[i + 1]
    ensures NodeNames([first] + rest) == Members(order)
  {
    var nodes := [first] + rest;
    forall i | 0 <= i < |nodes| ensures nodes[i].name == order[i] {
      if i > 0 { assert nodes[i] == rest[i - 1]; }
    }
    NamesInOrder(nodes, order);
  }

  /** The template's connections join its six nodes in the order of
      `Pipeline`, every connection names a node of the template, and the last
      node, `Send WhatsApp Reply`, has no outgoing link (n8n_manager.py:180-236). */
  lemma TemplateIsPipeline(webhookUuid: string)
    ensures LinearChain(GetWorkflowTemplate(webhookUuid), Pipeline)
    ensures WellFormed(GetWorkflowTemplate(webhookUuid))
    ensures Pipeline[|Pipeline| - 1] !in GetWorkflowTemplate(webhookUuid).connections
  {
    var w := GetWorkflowTemplate(webhookUuid);
    PipelineDistinct();
    TemplateNames(webhookUuid);
    ChainWellFormed(w, Pipeline);
  }

  /** A walk through the template that starts at one of its nodes never
      repeats a node and is at most six nodes long. */
  lemma TemplateHasNoCycle(webhookUuid: string, p: seq<string>)
    requires IsWalk(GetWorkflowTemplate(webhookUuid), p)
    requires |p| > 0 && p[0] in NodeNames(GetWorkflowTemplate(webhookUuid).nodes)
    ensures Distinct(p) && |p| <= |Pipeline|
  {
    TemplateIsPipeline(webhookUuid);
    TemplateNames(webhookUuid);
    var s :| 0 <= s < |Pipeline| && Pipeline[s] == p[0];
    ChainWalks(GetWorkflowTemplate(webhookUuid), Pipeline, p, s);
  }

  /** `"WhatsApp GPT - "`, the prefix of every client workflow's name. */
  const ClientWorkflowPrefix: string := "WhatsApp GPT - "

  /** The name `create_client_workflow` gives the client's copy
      (n8n_manager.py:268): the prefix, then the business name, or the client
      id when the business name is absent or empty. */
  function WorkflowName(businessName: Option<string>, clientId: string): (r: string)
    ensures ClientWorkflowPrefix <= r
    ensures Truthy(businessName) ==> r[|ClientWorkflowPrefix|..] == businessName.value
    ensures !Truthy(businessName) ==> r[|ClientWorkflowPrefix|..] == clientId
  {
    ClientWorkflowPrefix + (if Truthy(businessName) then businessName.value else clientId)
  }

  /** Two clients get the same workflow name only when what follows the
      prefix is the same. */
  lemma WorkflowNameInjective(b1: Option<string>, c1: string, b2: Option<string>, c2: string)
    requires WorkflowName(b1, c1) == WorkflowName(b2, c2)
    ensures (if Truthy(b1) then b1.value else c1) == (if Truthy(b2) then b2.value else c2)
  {
    assert WorkflowName(b1, c1)[|ClientWorkflowPrefix|..] == WorkflowName(b2, c2)[|ClientWorkflowPrefix|..];
  }

  /** A node that `get_webhook_url` accepts (n8n_manager.py:333-340): a
      webhook with a non-empty `webhookId` or a non-empty path. */
  predicate Qualifies(n: Node) {
    n.nodeType == WebhookNodeType && (Truthy(n.webhookId) || Truthy(n.path))
  }

  /** The URL a qualifying node is reached at: the `webhookId` wins over the path. */
  function NodeUrl(baseUrl: string, n: Node): string
    requires Qualifies(n)
  {
    baseUrl + "/webhook/" + (if Truthy(n.webhookId) then n.webhookId.value else n.path.value)
  }

  /** The URL of the first qualifying node, if any. */
  function FirstWebhookUrl(baseUrl: string, nodes: seq<Node>): (r: Option<string>)
    ensures r.None? <==> forall i :: 0 <= i < |nodes| ==> !Qualifies(nodes[i])
    ensures r.Some? ==> exists i :: 0 <= i < |nodes| && Qualifies(nodes[i]) && r.value == NodeUrl(baseUrl, nodes[i]) &&
                                    forall k :: 0 <= k < i ==> !Qualifies(nodes[k])
    decreases |nodes|
  {
    if nodes == [] then None
    else if Qualifies(nodes[0]) then Some(NodeUrl(baseUrl, nodes[0]))
    else
      var r := FirstWebhookUrl(baseUrl, nodes[1..]);
      assert forall i :: 1 <= i < |nodes| ==> nodes[i] == nodes[1..][i - 1];
      r
  }

  /** How the GET of a workflow ended: an exception (from the request or from
      reading the body as JSON), or a status and the body's node list (an
      absent `nodes` field is the empty list). */
  datatype FetchOutcome = FetchRaised | Fetched(status: int, nodes: seq<Node>)

  /** The text Python gives an optional id inside an f-string. */
  function IdText(id: Option<string>): string {
    if id.Some? then id.value else "None"
  }

  /** `get_webhook_url` (n8n_manager.py:312-346): the workflow is read back
      and its nodes searched in order for the first qualifying webhook. Any
      status but 200 and any exception give no URL. */
  method GetWebhookUrl(baseUrl: string, workflowId: Option<string>, fetch: FetchOutcome)
    returns (url: Option<string>, requested: string)
    ensures requested == baseUrl + "/api/v1/workflows/" + IdText(workflowId)
    ensures fetch.Fetched? && fetch.status == 200 ==> url == FirstWebhookUrl(baseUrl, fetch.nodes)
    ensures !(fetch.Fetched? && fetch.status == 200) ==> url == None
  {
    requested := baseUrl + "/api/v1/workflows/" + IdText(workflowId);
    if fetch.FetchRaised? || fetch.status != 200 {
      return None, requested;
    }
    var nodes := fetch.nodes;
    var i := 0;
    while i < |nodes|
      invariant 0 <= i <= |nodes|
      invariant FirstWebhookUrl(baseUrl, nodes[i..]) == FirstWebhookUrl(baseUrl, nodes)
    {
      var node := nodes[i];
      assert nodes[i..][0] == node && nodes[i..][1..] == nodes[i + 1..];
      if node.nodeType == WebhookNodeType {
        if Truthy(node.webhookId) {
          return Some(baseUrl + "/webhook/" + node.webhookId.value), requested;
        } else if Truthy(node.path) {
          return Some(baseUrl + "/webhook/" + node.path.value), requested;
        }
      }
      i := i + 1;
    }
    return None, requested;
  }

  /** Read back unchanged, the template's nodes give the URL of its webhook:
      the drawn UUID, or the path `whatsapp-webhook` should the UUID be empty. */
  lemma TemplateWebhookUrl(baseUrl: string, webhookUuid: string)
    ensures FirstWebhookUrl(baseUrl, GetWorkflowTemplate(webhookUuid).nodes) ==
      Some(baseUrl + "/webhook/" + (if webhookUuid != "" then webhookUuid else "whatsapp-webhook"))
  {
    var nodes := GetWorkflowTemplate(webhookUuid).nodes;
    FirstQualifies(baseUrl, nodes);
  }

  /** A list whose first node qualifies gives that node's URL. */
  lemma FirstQualifies(baseUrl: string, nodes: seq<Node>)
    requires |nodes| > 0 && Qualifies(nodes[0])
    ensures FirstWebhookUrl(baseUrl, nodes) == Some(NodeUrl(baseUrl, nodes[0]))
  {
  }

  /** How the POST that creates a workflow ended: an exception (from the
      request or from reading a 201 body as JSON) with its text, or a status,
      the body text and the `id` the body holds. */
  datatype PostOutcome = PostRaised(error: string) | PostAnswered(status: int, text: string, workflowId: Option<string>)

  /** The fields of `N8nWorkflow` (n8n_manager.py:9-22) but its creation time. */
  datatype WorkflowRecord = WorkflowRecord(
    workflowId: Option<string>,
    clientId: string,
    instanceId: string,
    name: string,
    status: string,
    webhookUrl: Option<string>)

  /** The dictionary `create_client_workflow` returns: `success` true with the
      workflow and a message, or false with an error and, when n8n answered,
      its status code. */
  datatype CreateResult =
    | WorkflowCreated(workflow: WorkflowRecord, message: string)
    | WorkflowFailed(error: string, statusCode: Option<int>)

  /** `create_client_workflow` (n8n_manager.py:251-310): the template,
      renamed for the client and otherwise untouched, is posted; a 201 answer
      yields a workflow record in status `created` and with the URL read back
      by `get_webhook_url`; any other status and any exception yield an error. */
  method CreateClientWorkflow(baseUrl: string, clientId: string, instanceId: string, businessName: Option<string>,
                              webhookUuid: string, post: PostOutcome, fetch: FetchOutcome)
    returns (result: CreateResult, sent: Workflow)
    ensures sent == GetWorkflowTemplate(webhookUuid).(name := WorkflowName(businessName, clientId))
    ensures post.PostRaised? ==> result == WorkflowFailed("Exception creating workflow: " + post.error, None)
    ensures post.PostAnswered? && post.status != 201 ==>
      result == WorkflowFailed("Failed to create workflow: " + post.text, Some(post.status))
    ensures post.PostAnswered? && post.status == 201 ==>
      && result.WorkflowCreated?
      && result.message == "Workflow created successfully"
      && result.workflow == WorkflowRecord(post.workflowId, clientId, instanceId, sent.name, "created",
           if fetch.Fetched? && fetch.status == 200 then FirstWebhookUrl(baseUrl, fetch.nodes) else None)
  {
    var template := GetWorkflowTemplate(webhookUuid);
    var workflowName := WorkflowName(businessName, clientId);
    template := template.(name := workflowName);
    sent := template;
    match post {
      case PostRaised(error) =>
        result := WorkflowFailed("Exception creating workflow: " + error, None);
      case PostAnswered(status, text, workflowId) =>
        if status == 201 {
          var webhookUrl, _ := GetWebhookUrl(baseUrl, workflowId, fetch);
          var workflow := WorkflowRecord(workflowId, clientId, instanceId, workflowName, "created", webhookUrl);
          result := WorkflowCreated(workflow, "Workflow created successfully");
        } else {
          result := WorkflowFailed("Failed to create workflow: " + text, Some(status));
        }
    }
  }
}
