# WhatsApp GPT onboarding — a Dafny model

WhatsApp GPT lets a business set up an AI customer-service agent on WhatsApp in
four screens. The browser wizard (`WhatsAppGPTApp`) collects the business's
details. It posts them to a Flask back end and shows the QR code of a new
WhatsApp gateway instance. Then it polls until that session reports `open`.
The back end's `setup_whatsapp_agent` route does five things in turn:

- creates the gateway instance;
- creates a per-client n8n workflow from a fixed template;
- points the instance's webhook at that workflow;
- uploads the business's knowledge to a vector store;
- activates the workflow.

The model has five modules:

| file | module | what it holds |
|---|---|---|
| `basics.dfy` | `Basics` | `Option`, the falsiness of optional strings that JavaScript and Python share, and substring containment |
| `translations.dfy` | `Translations` | the key structure of the three-language table, and what `loadLanguage` writes onto the page; repeated loads and language round trips are proved |
| `wizard.dfy` | `Wizard` | the class `WhatsAppGptApp`: step, language, form, agent record and poll timer as fields, and every handler as a method with its full new state; three driven sessions show what callers can conclude |
| `workflow.dfy` | `N8n` | the workflow template as a graph, its rename and creation, and the search for its webhook URL |
| `routes.dfy` | `Routes` | the setup pipeline as a function of the service outcomes, returning the response and the calls made; also the required-field guards of three endpoints |

Some inputs are not computed by the model:

- Network replies are parameters of the handlers. So are the UUIDs the back end draws for a client and for a webhook.
- The browser's interval registry is modelled by two fields: the set of live timer handles, and the next handle it hands out.
- A tick of the poll timer is one call of `CheckConnection`.

Two behaviours are modelled as the source has them:

- A non-201 reply from n8n reaches the client as `Failed to create workflow: Failed to create workflow: <n8n's text>`, because both the manager and the route add the prefix. An exception in the manager reaches it as `Failed to create workflow: Exception creating workflow: <error>`. In the model the route takes the manager's result as an input (`Services.workflow`); no lemma composes `N8n.CreateClientWorkflow` with `Routes.SetupWhatsAppAgent`.
- An interface language outside the table is stored anyway. The page is then not re-translated, and the next submit stops after clearing the error, where the source throws.

## Model

| member | source | states |
|---|---|---|
| Translations.ApplyBinding | script.js:403-416 | a write changes only its own target, only when that element exists and the binding yields a value (a non-empty string, or any list, an empty one giving empty markup), and adds no element |
| Translations.Apply | script.js:312-399 | translating the page neither adds nor removes elements |
| Translations.ApplyIsPaint | script.js:312-399 | applying the writes in order is the same as painting the overlay of their values, where the last write to a target wins |
| Translations.ApplyIdempotent | script.js:303-309 | loading the same language twice shows the same page as loading it once |
| Translations.ApplyOverrides | script.js:312-399 | loading one language after another shows what the second alone shows, when the second writes every target the first writes |
| Translations.OverlayCovers | script.js:312-399 | a language that has a value for every write writes every target named |
| Translations.SwitchAndBackOver | script.js:290-309 | switching to another language and back reproduces exactly the page the first language rendered, when both have every value |
| Translations.SwitchAndBack | script.js:290-309 | the same round trip over the page's own list of writes, for two complete languages |
| Translations.ApplyLeavesOthers | script.js:403-416 | elements no write names keep their text |
| Translations.WellFormedTableIsReady | script.js:419-726 | a table with the three languages, each complete, fits the page's own writes: every key the handlers read is there, and every write finds its value |
| Wizard.FindStep | script.js:133-143 | a name finds the step that bears it, and no step exactly when no step bears it |
| Wizard.FindStepName | script.js:133-143 | each step's own name finds that step |
| Wizard.LanguageLabel | script.js:294-299 | `pt`, `en` and `fr` are labelled PT, EN and FR; any other code is labelled PT |
| Wizard.WhatsAppGptApp.Valid | script.js:205-214 | between events at most one timer is live, the table fits the page's writes, the only active step is the current one, and the overlay is hidden |
| Wizard.WhatsAppGptApp.constructor | script.js:3-24 | given a table that fits the page's writes, the page loads on the welcome step in Portuguese, with an empty form, no agent, no timer, and the page translated |
| Wizard.WhatsAppGptApp.ShowStep | script.js:133-147 | a known name leaves exactly that step active and current; an unknown one leaves no step active and the current step unchanged |
| Wizard.WhatsAppGptApp.GoTo | script.js:133-147 | showing a step by its own name leaves that step alone active and current |
| Wizard.WhatsAppGptApp.ShowLoading | script.js:92-103 | the overlay is shown, its caption replaced only by a non-empty one |
| Wizard.WhatsAppGptApp.HideLoading | script.js:106-111 | the overlay is hidden and nothing else on the page changes |
| Wizard.WhatsAppGptApp.ShowError | script.js:114-122 | the banner is shown with exactly the message |
| Wizard.WhatsAppGptApp.HideError | script.js:125-130 | the banner is hidden and nothing else on the page changes |
| Wizard.WhatsAppGptApp.HandleSetupSubmit | script.js:150-202 | the form replaces the stored data wholesale. A missing name or description shows the localized required-fields error, with no request and no overlay. Otherwise the overlay is shown, exactly one request is posted, and the overlay is hidden on every outcome. Success stores the agent, shows the QR step and its image, and starts one fresh timer. A refusal shows the server's error, or the localized setup-failed text when that error is empty. A failed request shows connection-error. After a refusal or failure the step stays put. The invariant is kept |
| Wizard.WhatsAppGptApp.PostSetup | script.js:171-201 | after validation: overlay, one request, the outcome's effects, overlay hidden again |
| Wizard.WhatsAppGptApp.HandleSetupOutcome | script.js:177-198 | the effect of each of the three outcomes on agent, step, QR image, banner and timer |
| Wizard.WhatsAppGptApp.StartConnectionCheck | script.js:205-214 | the old interval is no longer live, and exactly one fresh handle is |
| Wizard.WhatsAppGptApp.StopConnectionCheck | script.js:242-245 | the held interval is cleared and forgotten, and no timer is left live |
| Wizard.WhatsAppGptApp.DisplayQrCode | script.js:217-231 | the image becomes the PNG data URI of the QR payload; without a payload the page is unchanged |
| Wizard.WhatsAppGptApp.CheckConnection | script.js:234-252 | without an instance id nothing happens. Otherwise one status request is made. Only a successful `open` stops the timer, moves to the success step and shows the business name. Every other reply, and a failed request, changes nothing else |
| Wizard.WhatsAppGptApp.UpdateSuccessInfo | script.js:255-260 | the success card shows the business name when it is non-empty |
| Wizard.WhatsAppGptApp.ResetApp | script.js:263-287 | from any valid state: the welcome step, an empty form, no agent, no live timer, and the banner hidden |
| Wizard.WhatsAppGptApp.ChangeLanguage | script.js:290-300 | the code is stored whatever it is. The page is re-translated only for a language the table has. The label is PT, EN or FR as the code is `pt`, `en` or `fr`, and PT for any other code |
| Wizard.WhatsAppGptApp.LoadLanguage | script.js:303-309 | translate for a language the table has, and do nothing otherwise |
| N8n.Chain | src/services/n8n_manager.py:180-236 | each name but the last links to the next one, and only those names have links |
| N8n.ChainWellFormed | src/services/n8n_manager.py:180-236 | in a linear chain every connection source and every link target is a node |
| N8n.LastHasNoLinks | src/services/n8n_manager.py:225-236 | the last node of a chain has no outgoing connection |
| N8n.ChainWalks | src/services/n8n_manager.py:180-236 | every walk through a chain runs along it and never repeats a node, so there are no branches and no cycles |
| N8n.GetWorkflowTemplate | src/services/n8n_manager.py:35-249 | the template is inactive, with six nodes: the webhook trigger, then the five processing nodes |
| N8n.ProcessingNodesShape | src/services/n8n_manager.py:57-178 | the processing nodes carry the pipeline's names after the trigger, and none is a webhook |
| N8n.TemplateHasOneWebhook | src/services/n8n_manager.py:45-56 | exactly one node is a webhook: the first, with the drawn UUID and the path `whatsapp-webhook` |
| N8n.TemplateNames | src/services/n8n_manager.py:44-178 | the template's node names are the six pipeline names |
| N8n.TemplateIsPipeline | src/services/n8n_manager.py:180-236 | the template is the linear chain Webhook Trigger → Message Filter → Extract Message → Query Knowledge Base → Generate AI Response → Send WhatsApp Reply. It is well formed, and Send WhatsApp Reply has no outgoing link |
| N8n.TemplateHasNoCycle | src/services/n8n_manager.py:180-236 | a walk through the template from any node never repeats a node and has at most six |
| N8n.WorkflowName | src/services/n8n_manager.py:268 | the name is `WhatsApp GPT - ` followed by the business name, or by the client id when the name is absent or empty |
| N8n.WorkflowNameInjective | src/services/n8n_manager.py:268 | equal workflow names mean equal text after the prefix |
| N8n.FirstWebhookUrl | src/services/n8n_manager.py:332-342 | no URL exactly when no node qualifies. Otherwise it is the URL of the first qualifying node, where a webhook id is preferred to a path |
| N8n.GetWebhookUrl | src/services/n8n_manager.py:312-346 | the loop returns the first qualifying node's URL on status 200, and nothing on any other status or on an exception |
| N8n.TemplateWebhookUrl | src/services/n8n_manager.py:47-55 | read back unchanged, the template's webhook URL is base + `/webhook/` + UUID |
| N8n.CreateClientWorkflow | src/services/n8n_manager.py:251-310 | the posted document is the template with only its name changed. A 201 reply gives a record in status `created` with the given ids and the read-back URL. Any other status gives the prefixed error and that status. An exception gives its prefixed text and no status |
| Routes.KnowledgeDocumentMentions | src/routes/whatsapp_gpt.py:78-89 | the uploaded text holds a labelled line with each of name, description, hours and contact, and the knowledge text under its heading |
| Routes.SetupWhatsAppAgent | src/routes/whatsapp_gpt.py:17-121 | an unreadable body, a failed instance or a failed workflow each give 500, with their prefixed error and no further call. Otherwise the setup completes |
| Routes.SetupCallOrder | src/routes/whatsapp_gpt.py:36-101 | the calls follow the order instance, workflow, webhook, knowledge, activation, each at most once, and start with the instance |
| Routes.SetupCompletedData | src/routes/whatsapp_gpt.py:100-115 | a completed setup reports: the instance's id and QR code; the workflow's id and webhook URL; knowledge processed only for non-empty text that the store accepted; and the activation flag. Its last call is the activation |
| Routes.CompletedCalls | src/routes/whatsapp_gpt.py:36-101 | the exact call sequence of a completed setup |
| Routes.SetupWebhookCall | src/routes/whatsapp_gpt.py:66-74 | the webhook is configured with the workflow's URL exactly when setup gets that far and the URL is non-empty |
| Routes.SetupKnowledgeCall | src/routes/whatsapp_gpt.py:76-98 | the knowledge document is uploaded exactly when setup gets that far and the knowledge text is non-empty |
| Routes.WebhookOutcomeIgnored | src/routes/whatsapp_gpt.py:72-74 | a failed webhook configuration changes neither the response nor the calls |
| Routes.AddKnowledge | src/routes/whatsapp_gpt.py:151-180 | an unreadable body gives 500, and a missing or empty client id or content gives 400, with no call. Otherwise the store gets exactly the fields, with metadata defaulting to an empty map |
| Routes.QueryKnowledge | src/routes/whatsapp_gpt.py:182-211 | an unreadable body gives 500, and a missing or empty client id or query gives 400, with no call. Otherwise the query goes out with `top_k` defaulting to 5 |
| Routes.SendTestMessage | src/routes/whatsapp_gpt.py:227-256 | an unreadable body gives 500, and a missing or empty instance id or number gives 400, with no call. Otherwise the message goes out, defaulting to the Portuguese greeting |

## Left out

- DOM rendering is reduced to the `View` record. That covers lucide icons, the 100 ms icon refresh, event-listener wiring, the language dropdown, and `form.reset()` in `resetApp`.
- Time is not modelled. There are no real intervals and no interleaving of asynchronous handlers: each handler runs to completion. Overlapping poll ticks are therefore not modelled.
- The translation strings themselves are left out. The table is a constructor parameter, and only its keys, and whether a value is empty, matter.
- `Wizard.WhatsAppGptApp.constructor` takes the list of page writes as a parameter. The page passes `Translations.Bindings`. The language round trip is proved over any such list, and over `Bindings` itself in `SwitchAndBack`.
- `Translations.ApplyBinding` treats each feature card and each success-card label as a separate element. It does not capture that the source writes them only when all three cards or labels exist.
- The request body of a setup POST, with the gateway URL and key from the configuration, is reduced to the form.
- The vector store, the WhatsApp gateway client, and n8n's activate, deactivate, delete and status calls are external HTTP wrappers. Their results are inputs.
- The node parameters of the template are left out: the filter condition, the message-extraction code, the request settings, the prompt and the temperature (a float). Node ids, names, types, versions and positions are modelled.
- The `created_at` timestamp of a workflow record is not modelled, because it comes from the clock.
- The warning `print`s on a failed webhook configuration and in `get_webhook_url`'s exception handler are left out.
- JSON `null` values and fields of the wrong type in request bodies are not modelled. An absent setup field is the empty string, and an absent guarded field is `None`.
- The unguarded handlers (`check_connection`, `get_qr_code`, `workflow_status`, `client_stats`, `health`) only forward a service reply or the clock.
- Codes that name a property every JavaScript object inherits (`constructor`, `toString`, `__proto__` and the like) take the model's path for an unknown code. In the source, `this.translations[lang]` is truthy for them, so `updateTranslations` throws before any write and `changeLanguage` stops before writing the label. The model has no prototype chain, so it stores the code and labels it PT.
- A table missing a section or a list that a write reads is not modelled: the source throws at that write. The class requires a table that fits its writes (`Translations.Fits`), which the shipped table does (`Translations.WellFormedTableIsReady`). `Translations.Written` skips a missing key rather than throwing.
