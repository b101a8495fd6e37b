# AutomaZap front-end logic in Dafny

AutomaZap is a software-as-a-service dashboard for building WhatsApp-style
chatbots. Its React front end is mocked: there is no back end, and every
"API call" is a timer over in-memory state. This project models the ordinary
sequential logic inside that front end and proves properties of it:

- the bot registry (`BotContext`): seed bot, create with defaults, delete,
  look up, shallow-merge update;
- the account registry and session (`AuthContext`): login by email, signup
  with a duplicate-email guard, logout, profile update, the loading flag;
- the subscription state machine (`SubscriptionContext`): the plan
  catalogue, the current plan, subscribe and cancel with their guards;
- the checkout form (`Checkout`): the card-number, expiry-date and CVV
  formatters, the validity rule and the submit guard;
- the keyword reply selector and the two chat transcripts (`ChatBot`,
  `ChatInterface`);
- the four-step bot-creation wizard;
- the route guard, the end-user search, the analytics chart data and the
  pricing-page cards.

Each source file becomes one module (`common.dfy` holds the JavaScript string
and array operations they share). Stateful sources (the three contexts, the
two chat components, the wizard) are classes whose fields are the React
state, with methods that state the whole new state; the pure parts are
functions with lemmas. Timers and `await`ed delays complete immediately and
in order. Ids, timestamps (milliseconds since the epoch) and random picks
are parameters; ids built from the clock are built from that parameter
exactly as the source does (`bot-<now>`, `user-<now>`).

## Model

| member | source | states |
|---|---|---|
| Common.Digits | src/pages/Checkout.tsx:61 | `replace(/\D/g, "")` keeps only decimal digits, each taken from the input, keeps every digit of the input, never grows the string, and leaves it unchanged exactly when it is all digits (order: `Common.DigitsAppend`) |
| Common.Trim | src/components/ChatBot.tsx:68 | `trim()` removes JavaScript whitespace at both ends: the result is a slice whose ends are not whitespace, and it is empty exactly when the input is blank |
| Common.TrimFacts | src/components/ChatBot.tsx:68 | trimming the start and then the end gives a slice with blank surroundings and non-blank ends, empty exactly for a blank string |
| Common.ToLowerIdempotent | src/components/ChatBot.tsx:50 | lower-casing twice is lower-casing once |
| Bots.NewBotDefaults | src/context/BotContext.tsx:52-67 | a new bot is active with zero messages and users, and takes "Amigável", the name greeting, "pt-BR" and "Normal" exactly where the creation data left them out (an empty welcome message counts as left out) |
| Bots.MergeBotLaws | src/context/BotContext.tsx:87 | the empty patch changes nothing; applying a patch twice equals applying it once |
| Bots.BotIndex | src/context/BotContext.tsx:84 | `findIndex`: the position of the first bot with the id, or none exactly when no bot has it |
| Bots.LookupBot | src/context/BotContext.tsx:80 | `find`: the first bot with the id, or nothing exactly when no bot has it |
| Bots.WithoutBotSpec | src/context/BotContext.tsx:75 | deleting removes every bot with the id, keeps every other bot in order, leaves the list as it was for an unknown id, and the id is then not found |
| Bots.CreatedBotIsFound | src/context/BotContext.tsx:69-81 | appending a bot with a fresh id keeps ids distinct and `getBot` then finds it |
| Bots.SameMillisecondIdsCollide | src/context/BotContext.tsx:52-81 | two bots created in the same millisecond share an id, and lookup only ever finds the first |
| Bots.DeleteKeepsIdsDistinct | src/context/BotContext.tsx:75 | deleting keeps ids pairwise distinct |
| Bots.BotStore.constructor | src/context/BotContext.tsx:31-47 | the store starts with exactly the seed bot "demo-bot-1" |
| Bots.BotStore.GetBot | src/context/BotContext.tsx:79-81 | the first bot in the list with the id, or nothing exactly when none has it |
| Bots.BotStore.CreateBot | src/context/BotContext.tsx:51-72 | exactly one bot, built with the defaults and id `bot-<now>`, is appended and every existing bot stays in order; with a fresh id it is what `getBot` finds and ids stay distinct |
| Bots.BotStore.DeleteBot | src/context/BotContext.tsx:74-77 | the list becomes the filtered list, the id is no longer found, distinct ids stay distinct |
| Bots.BotStore.UpdateBot | src/context/BotContext.tsx:83-93 | on a known id only the first bot with it is merged with the patch, length and all other bots unchanged; on an unknown id nothing changes and not-found is reported |
| Auth.MergeProfileLaws | src/context/AuthContext.tsx:157-160 | the empty patch keeps the profile; applying a patch twice equals applying it once |
| Auth.LookupEmail | src/context/AuthContext.tsx:62 | the account found carries the email, and nothing is found exactly when no account has it |
| Auth.LookupFindsTheAccount | src/context/AuthContext.tsx:62 | with distinct emails, looking up an account's email finds that account |
| Auth.SignupKeepsEmailsDistinct | src/context/AuthContext.tsx:101-118 | appending an account whose email is unregistered keeps emails pairwise distinct |
| Auth.LoginAfterSignup | src/context/AuthContext.tsx:62-118 | after a signup, logging in with that email finds the new account |
| Auth.AuthProvider.constructor | src/context/AuthContext.tsx:20-43 | initially nobody is signed in, the provider is loading, and only the demo account is registered |
| Auth.AuthProvider.Restore | src/context/AuthContext.tsx:47-53 | the mount effect adopts the stored session when there is one, keeps the session otherwise, and stops loading |
| Auth.AuthProvider.IsAuthenticated | src/context/AuthContext.tsx:185 | authenticated exactly when a user is signed in |
| Auth.AuthProvider.Login | src/context/AuthContext.tsx:55-92 | a registered email signs in the first matching account with only `lastLogin` changed, whatever the password; an unknown email leaves the session; never changes the registry; not loading afterwards |
| Auth.AuthProvider.Signup | src/context/AuthContext.tsx:94-137 | a registered email fails with registry and session unchanged; otherwise exactly one trial account (no company, no plan, zero usage) is appended and signed in; emails stay distinct; not loading afterwards |
| Auth.AuthProvider.Logout | src/context/AuthContext.tsx:139-147 | nobody is signed in afterwards, the registry is untouched, and the page navigates to "/" |
| Auth.AuthProvider.UpdateProfile | src/context/AuthContext.tsx:149-179 | with nobody signed in nothing changes; otherwise the supplied fields replace the session's and the rest are kept; the registry is never written; not loading afterwards |
| Subscription.CatalogueShape | src/context/SubscriptionContext.tsx:18-85 | the catalogue is "free", "pro", "enterprise" in that order, and only "enterprise" has bot limit -1 |
| Subscription.FindPlan | src/context/SubscriptionContext.tsx:105 | a plan is found exactly for the three catalogue ids, and it carries the requested id |
| Subscription.CurrentPlanOf | src/context/SubscriptionContext.tsx:91-93 | the free plan with no user or an absent or empty plan id; otherwise a catalogue entry carrying the user's plan id, found exactly for the three catalogue ids |
| Subscription.SubscribeOutcome | src/context/SubscriptionContext.tsx:125-129 | subscribing changes status to active, the plan id and the end date and nothing else, and the plan becomes the current plan |
| Subscription.CancelOutcome | src/context/SubscriptionContext.tsx:165-167 | cancelling changes the status to canceled and nothing else |
| Subscription.SubscriptionProvider.constructor | src/context/SubscriptionContext.tsx:87-89 | no payment is in progress at first |
| Subscription.SubscriptionProvider.CurrentPlan | src/context/SubscriptionContext.tsx:91-93 | the provider's current plan is `CurrentPlanOf` the signed-in user, so the free plan with nobody signed in |
| Subscription.SubscriptionProvider.SubscribeToPlan | src/context/SubscriptionContext.tsx:95-147 | succeeds exactly with a signed-in user and a catalogue id; a refusal changes nothing; success makes the profile active on the plan and leaves the payment flag clear |
| Subscription.SubscriptionProvider.CancelSubscription | src/context/SubscriptionContext.tsx:149-185 | succeeds exactly for a signed-in active user; a refusal changes nothing; success sets canceled and leaves the payment flag clear |
| Checkout.GroupedLength | src/pages/Checkout.tsx:62 | grouping adds one space per complete group of four that another digit follows |
| Checkout.GroupedSpaces | src/pages/Checkout.tsx:62 | in a grouped digit string position `i` is a space exactly when `i % 5 == 4`, a digit otherwise |
| Checkout.GroupedFilter | src/pages/Checkout.tsx:62 | any filter keeping digits and dropping the space undoes the grouping |
| Checkout.GroupedUngroups | src/pages/Checkout.tsx:61-62 | removing the spaces from, or keeping the digits of, a grouped digit string gives it back |
| Checkout.GroupedSplit | src/pages/Checkout.tsx:62 | grouping splits after any multiple of four with one space |
| Checkout.CardNumberIsGroupedPrefix | src/pages/Checkout.tsx:60-64 | the card field is the grouping of the first min(16, n) digits typed |
| Checkout.GroupedCardLayout | src/pages/Checkout.tsx:62-63 | grouping at most sixteen digits yields the card layout |
| Checkout.CardLayoutSpaces | src/pages/Checkout.tsx:62 | a space stands only between a complete group of four digits and another digit: no leading, trailing or doubled spaces |
| Checkout.FormatCardNumberShape | src/pages/Checkout.tsx:60-64 | only digits and spaces, at most 19 characters, card layout; without spaces it is the first min(16, n) digits typed, in order |
| Checkout.FormatCardNumberIdempotent | src/pages/Checkout.tsx:60-64 | formatting a formatted card number changes nothing |
| Checkout.FormatExpiryDateShape | src/pages/Checkout.tsx:66-72 | at most five characters; fewer than three digits are returned as they are; otherwise two digits, "/", at most two digits; its digits are the first min(4, n) typed |
| Checkout.FormatExpiryDateIdempotent | src/pages/Checkout.tsx:66-72 | formatting a formatted expiry date changes nothing |
| Checkout.FilterCvvShape | src/pages/Checkout.tsx:151 | the CVV field is the first min(3, n) digits typed, and filtering again changes nothing |
| Checkout.FormValidFromTypedInput | src/pages/Checkout.tsx:51-55 | with the fields filled through their formatters the form is valid exactly when at least 16 card digits, at least 4 expiry digits and at least 3 CVV digits were typed and the trimmed name has at least 3 characters |
| Checkout.HandleSubmit | src/pages/Checkout.tsx:74-83 | an invalid form or an empty plan id does nothing; otherwise it subscribes, goes on to the dashboard exactly when the subscription succeeded, keeps the account registry, changes nothing when the subscription is refused, and ends with the payment and loading flags clear on success |
| ChatBot.FirstMatchUnfolded | src/components/ChatBot.tsx:52-63 | the rule table searched in order is the chain price, delivery, payment, discount, greeting, fallback |
| ChatBot.MentionsAnyCases | src/components/ChatBot.tsx:52-60 | each category's keyword list is the disjunction the if-chain tests |
| ChatBot.GetBotResponseIsFirstMatch | src/components/ChatBot.tsx:49-65 | the reply is that of the first category, in the order price, delivery, payment, discount, greeting, with a keyword in the lower-cased message, else the fallback |
| ChatBot.FirstMatchIsARuleReply | src/components/ChatBot.tsx:49-65 | a first-match search returns one of the rules' replies or the fallback |
| ChatBot.ResponseIsCanned | src/components/ChatBot.tsx:49-65 | every reply is one of the six fixed texts |
| ChatBot.PriceTakesPriority | src/components/ChatBot.tsx:52-53 | a price keyword wins over every other keyword |
| ChatBot.FallbackExactlyWhenNoKeyword | src/components/ChatBot.tsx:62-63 | the fallback is given exactly when no keyword of any category occurs |
| ChatBot.ResponseIgnoresCase | src/components/ChatBot.tsx:50 | a lower-cased message gets the same reply as the original |
| ChatBot.InitialTranscript | src/components/ChatBot.tsx:21-41 | exactly one bot message with id "initial", time `now` and the supplied text (the default greeting when none is supplied), and nothing for an empty initial message |
| ChatBot.ChatBotWidget.constructor | src/components/ChatBot.tsx:25-41 | after mounting the transcript is the initial transcript and the input is empty |
| ChatBot.ChatBotWidget.SetInput | src/components/ChatBot.tsx:26 | typing replaces the input and leaves the transcript |
| ChatBot.ChatBotWidget.HandleSendMessage | src/components/ChatBot.tsx:67-85 | a blank input does nothing; otherwise exactly one user message with the typed text is appended at the end, the input is cleared, and the text is handed to the parent and to the reply timer |
| ChatBot.ChatBotWidget.DeliverReply | src/components/ChatBot.tsx:88-97 | the timer appends exactly one bot message whose text is the reply chosen for the sent text, leaving the input alone |
| ChatBot.ChatBotWidget.SendAndReply | src/components/ChatBot.tsx:67-97 | a send and its timer: blank input changes nothing; otherwise the user's message and then the reply chosen for that very message are appended and the input is cleared |
| ChatInterface.SendDisabled | src/components/ChatInterface.tsx:130 | the send button is disabled exactly when the input is blank |
| ChatInterface.Conversation.constructor | src/components/ChatInterface.tsx:16-25 | the transcript starts as exactly one bot greeting, with an empty input |
| ChatInterface.Conversation.SetInput | src/components/ChatInterface.tsx:25 | typing replaces the input and leaves the transcript |
| ChatInterface.Conversation.HandleSendMessage | src/components/ChatInterface.tsx:27-39 | does nothing exactly when sending is disabled; otherwise appends exactly one user message (`isBot` false) with the input at the end and clears the input |
| ChatInterface.Conversation.DeliverReply | src/components/ChatInterface.tsx:42-61 | the timer appends exactly one bot message (`isBot` true) whose content is one of the five fixed replies, leaving the input alone |
| ChatInterface.Conversation.SendAndReply | src/components/ChatInterface.tsx:27-62 | a send and its timer: a disabled send changes nothing; otherwise the user's message and then the picked canned reply are appended and the input is cleared |
| BotWizard.StepIndex | src/components/BotCreationWizard.tsx:89 | the position of the step in the order info, knowledge, connection, complete |
| BotWizard.NextAdvancesByOne | src/components/BotCreationWizard.tsx:32-51 | moving forward advances the index by one, except on info with a blank name and on complete |
| BotWizard.CompleteIsFinal | src/components/BotCreationWizard.tsx:32-59 | neither direction leaves the complete step |
| BotWizard.BackUndoesNext | src/components/BotCreationWizard.tsx:32-59 | back undoes forward out of info and knowledge, and forward undoes back out of knowledge and connection |
| BotWizard.IndicatorShape | src/components/BotCreationWizard.tsx:89-95 | a circle is done exactly when its index is below the current step's, and exactly one circle is current |
| BotWizard.NextMarksStepDone | src/components/BotCreationWizard.tsx:89-95 | after a forward move the previous circle is done and the next one current |
| BotWizard.ShowsBack | src/components/BotCreationWizard.tsx:301 | "Voltar" is shown exactly on the steps where going back moves |
| BotWizard.ShowsNext | src/components/BotCreationWizard.tsx:310 | the forward button is shown exactly on the steps some name can leave |
| BotWizard.NextLabel | src/components/BotCreationWizard.tsx:312 | the forward button reads "Finalizar" exactly on the connection step and "Próximo" on every other step |
| BotWizard.Wizard.constructor | src/components/BotCreationWizard.tsx:22-26 | the wizard starts on info with empty name and description, "Amigável" and files |
| BotWizard.Wizard.SetBotName | src/components/BotCreationWizard.tsx:23 | only the name changes |
| BotWizard.Wizard.SetBotDescription | src/components/BotCreationWizard.tsx:24 | only the description changes |
| BotWizard.Wizard.SelectPersonality | src/components/BotCreationWizard.tsx:61-63 | only the personality changes |
| BotWizard.Wizard.SelectKnowledgeSource | src/components/BotCreationWizard.tsx:65-67 | only the knowledge source changes |
| BotWizard.Wizard.GoToNextStep | src/components/BotCreationWizard.tsx:32-51 | the step advances by the transition rule; leaving connection appends exactly one bot built from the entered name, description, personality and source; no other step touches the store; only leaving connection navigates, to "/dashboard" |
| BotWizard.Wizard.GoToPreviousStep | src/components/BotCreationWizard.tsx:53-59 | knowledge goes to info, connection to knowledge, other steps stay; nothing else changes |
| BotWizard.CreateThroughWizard | src/components/BotCreationWizard.tsx:32-51 | walking the wizard with a non-blank name creates exactly one bot with that name, which `getBot` finds; the state ends complete while the page is sent to "/dashboard" |
| PrivateRoute.Decide | src/components/PrivateRoute.tsx:15-40 | spinner exactly while loading; "/login" exactly when not loading and signed out; "/onboarding" exactly for a signed-in account without company away from "/onboarding"; the page otherwise |
| PrivateRoute.RouteFor | src/components/PrivateRoute.tsx:11-30 | the page renders only for an authenticated session |
| PrivateRoute.OnboardingDoesNotLoop | src/components/PrivateRoute.tsx:15-34 | "/onboarding" never redirects to itself and renders for any signed-in account |
| PrivateRoute.NewAccountIsOnboarded | src/components/PrivateRoute.tsx:34-37 | a freshly signed-up account is sent to onboarding from every other page |
| PrivateRoute.DemoUserIsAdmitted | src/components/PrivateRoute.tsx:34-40 | the demo account reaches every guarded page |
| BotUsers.FilteredUsers | src/pages/BotUsers.tsx:32-36 | the list holds only users of the input that match, and every matching user |
| BotUsers.FilteredUsersKeepOrder | src/pages/BotUsers.tsx:32 | the filtered list keeps the input order |
| BotUsers.EmptySearchShowsEveryone | src/pages/BotUsers.tsx:32-33 | an empty search term keeps every user |
| BotUsers.SearchIgnoresCaseExceptPhone | src/pages/BotUsers.tsx:33-34 | name and e-mail matching ignore the case of the term |
| BotUsers.NoContactMatchesByName | src/pages/BotUsers.tsx:34-35 | a user without e-mail and phone matches by name only |
| BotUsers.TypingNarrows | src/pages/BotUsers.tsx:33-35 | a user matching a term also matches every prefix of it |
| BotUsers.FilteredUsersNarrow | src/pages/BotUsers.tsx:32-36 | the list for a longer term is contained in the list for its prefix |
| BotUsers.MessageCount | src/pages/BotUsers.tsx:106 | zero when the user has no record for the bot, the recorded count otherwise |
| BotAnalytics.MessageDataSpec | src/pages/BotAnalytics.tsx:41-45 | one chart point per day, in order, copying date, message count and user count |
| BotAnalytics.QuestionLabel | src/pages/BotAnalytics.tsx:48 | at most 23 characters; a question of at most 20 characters is kept verbatim; a longer one becomes its first 20 characters and "..." |
| BotAnalytics.QuestionLabelIdempotent | src/pages/BotAnalytics.tsx:48 | labelling a label changes nothing |
| BotAnalytics.QuestionLabelCollisions | src/pages/BotAnalytics.tsx:48 | two questions share a label exactly when equal or both long with the same first 20 characters |
| BotAnalytics.TopQuestionsDataSpec | src/pages/BotAnalytics.tsx:47-50 | one bar per question, in order, with its count and its label |
| Pricing.SelectPlanTarget | src/pages/Pricing.tsx:15-24 | "/signup?plan=<id>" when signed out, "/checkout?plan=<id>" when signed in |
| Pricing.ButtonDisabled | src/pages/Pricing.tsx:68 | enabled exactly when the plan is not current and no payment is processing |
| Pricing.ButtonLabel | src/pages/Pricing.tsx:70 | "Plano atual" exactly for the current plan, "Usar plano gratuito" exactly for a non-current free plan, "Assinar agora" exactly for any other plan |
| Pricing.PriceText | src/pages/Pricing.tsx:28-49 | "Grátis" exactly when the price is 0, otherwise "R$ " and the price |
| Pricing.AtMostOneCurrentCard | src/pages/Pricing.tsx:27 | at most one card is marked current |
| Pricing.CurrentCardIsCurrentPlan | src/pages/Pricing.tsx:27 | the card marked current is the subscription context's current plan |
| Pricing.SubscribedCardIsCurrent | src/pages/Pricing.tsx:27-70 | after subscribing, the chosen card reads "Plano atual" and is disabled |
| Pricing.CanceledCardStaysCurrent | src/pages/Pricing.tsx:27 | cancelling keeps the plan id, so the canceled plan's card is still marked current |
| Pricing.PlanlessAccountSeesNoCurrentCard | src/pages/Pricing.tsx:27-70 | an account without a plan id is on the free plan for the subscription context, yet no card is current and the free card offers "Usar plano gratuito" |

## Left out

- Rendering, layout, icons and the routing table: only the decisions behind them are modelled.
- `localStorage` and JSON: `Auth.AuthProvider.Restore` takes what storage held as a parameter, and writes to storage are not modelled.
- `toast` and `console` are not modelled. Navigation is the route an operation returns: `Bots.BotStore.CreateBot` always returns "/dashboard", `Auth.AuthProvider.Logout` always returns "/", `BotWizard.Wizard.GoToNextStep` returns "/dashboard" when it leaves the connection step, and `Checkout.HandleSubmit` returns whether it goes on to the dashboard.
- Auth.AuthProvider.Login: returns no route; `ok` is exactly the case in which the source navigates to "/dashboard".
- Auth.AuthProvider.Signup: returns no route; `ok` is exactly the case in which the source navigates to "/dashboard" (where the route guard then sends the company-less account to "/onboarding", `PrivateRoute.NewAccountIsOnboarded`).
- BotWizard.CreateThroughWizard: the wizard's state ends on the complete step, but `createBot` has already navigated to the dashboard, so the completion screen is left at once; the model keeps the state and returns the route rather than modelling which page is on screen.
- Checkout.HandleSubmit: takes the page's `isFormValid` state as the parameter `formValid`; the validation effect that sets it after every edit to `IsFormValid` of the four fields is not a separate member, and `Checkout.FormValidFromTypedInput` states when that value is true.
- Delays (`setTimeout`, awaited promises) complete immediately and in order; no interleaving of two operations is modelled.
- Clock values are parameters: `now` for ids and timestamps, and the one-month subscription end date is passed in as `endDate` because month arithmetic on `Date` is not modelled. The trial end is `now` plus fourteen days in milliseconds.
- `Math.random` in the training chat is the parameter `pick`, an arbitrary index into the five replies.
- The `onMessage` callback of the chat widget is the text `HandleSendMessage` returns; whether the parent supplied a callback is not modelled.
- The reply timers of both chats are separate methods (`DeliverReply`) that the caller runs after the send; the text a reply answers is the one the send returned.
- Common.ToLower: maps only ASCII and Latin-1 capitals (U+00C0 to U+00DE except U+00D7), not full Unicode case mapping; `toUpperCase` on the card holder's name is not modelled.
- String lengths count code points, while JavaScript counts UTF-16 units; they differ only for characters outside the Basic Multilingual Plane.
- The regular expressions of the formatters are modelled directly over digit strings, not through a regular-expression engine.
- `toFixed` and the other number formatting of the analytics page are floating point and not modelled; a day's `responseTime` is carried as a real and not used, and the record's `userSatisfaction` and `averageResponseTime` are not modelled.
- The store operations the pages call but the bot store does not define (`sendMessage`, `getMessages`, `getBotUsers`, `getBotAnalytics`) are not modelled; the user list and the analytics record's daily stats and top questions are parameters of the page functions (its satisfaction and average response time only feed number formatting), and deleting a bot cascades to nothing.
- Patches (`Partial<...>`) supply a field or leave it out; an explicit `undefined` for a required field is not modelled.
- Bots.BotStore.CreateBot: does not require a fresh id; when `bot-<now>` is already taken the bot is still appended, and the lookup and distinct-id promises are stated only for a fresh id.
- BotWizard.Wizard.SelectKnowledgeSource: requires the source to be files or conversation, the two the wizard's type allows.
- The wizard's "Personalizar Bot" and "Começar a Conversar" buttons only navigate and are not modelled.
- The checkout page's plan lookup from the query string (it navigates away on a missing or unknown plan) is not modelled; `Checkout.HandleSubmit` receives the plan id.
