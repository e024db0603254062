# AI Research Explorer — a verified model of its data and view logic

AI Research Explorer is a React single-page site. It presents a research
database in five sections: AI capability enhancement technologies, AI
research in India, internship opportunities, learning paths and additional
resources. This project models the logic beneath the rendering, in Dafny,
and proves what that logic guarantees.

- **The data provider** (`DataContext`). The provider loads the database
  once per mount into three state cells, `data`, `loading` and `error`.
  - A failed request, a non-ok HTTP status or a body that does not parse
    all lead to the hand-written fallback document and an error message.
  - The fallback document `FallbackDocument.Fallback()` is written out
    field by field.
  - Two things are proved about the fallback: where it matches the
    declared schema (`Schema`, after `src/types/index.ts`), and which list
    reads the pages make succeed or throw on it (`PageReads`).
- **The category selectors.**
  - On the capabilities page (`AICapabilitiesPage`): the options, the
    technologies shown and the active description.
  - On the India research page (`IndiaResearchPage`): the options, and the
    institutions shown, each tagged with a type.
- **The small mappings these feed.**
  - The institution card's type to colour and icon, and its expand toggle
    (`InstitutionCard`).
  - The learning path card's colour to gradient, and its hover flag
    (`LearningPathCard`).
  - The home page's summary cards, with their `|| ''` and `|| 0` defaults
    (`HomePage`).
- **The neural network scene's topology** (`NeuralNetwork`): node and
  connection generation per layer, and the chaining of the scene's four
  layers.
- **The scroll animation wrapper** (`ScrollAnimation`): prop defaults,
  variant merging, and the command the in-view effect sends.
- **The loader's progress bar** (`Loader`): the capped random step and the
  rounded percentage.

## Common ground

JavaScript values are modelled by `Js.Value`:

- Property reads throw a `TypeError` on `undefined` and `null`.
- `x.map` throws unless `x` is an array.
- `||` follows JavaScript truthiness.

A page "renders" when every list it maps over or spreads can be read.
`PageReads` lists those paths page by page. Reading a scalar never throws
while its parent exists, and every such parent also holds one of the
listed lists.

## Where the code departs from the intended contract

The fallback document is meant to be a document of the declared shape: the
code casts it to `AIResearchDatabase`. It is meant to hold only empty
collections, and the document is meant to be non-null after every load.
The code differs in four ways, and the model follows the code:

- **The internship section does not match its declared type.**
  - Each application strategy has `tips` where `title` and `components`
    are declared.
  - The background section has `backgrounds` where `points` is declared.
  - The student tips have `tips` where `categories` is declared.
  - The action plan has no `title`.
  - As a result, the Internships page throws on its first render after
    any failed load. It maps `backgroundLeveraging.points`, below the
    tabs, on every render (`FallbackDocument.FallbackInternshipsReads`,
    `DataContext.FailedLoadBreaksOnlyInternships`).
- **Three learning paths lack a required field.** The cutting-edge, brain
  and cognition, and merged paths lack the `description` their interfaces
  require (`FallbackDocument.LearningPathsDoNotConform`). The page does
  not throw on this.
- **One fallback collection is not empty.** `collectiveTerms` holds one
  term.
- **A successful load can expose a falsy document.** When the load
  succeeds with a body that parses to `null`, `data` is `null` and pages
  keep showing the loader (`DataContext.SettledPagesRender`).

## Model

| member | source | states |
|---|---|---|
| DataContext.HttpErrorMessage | src/store/DataContext.tsx:31 | the HTTP error message begins with the prefix `HTTP error! Status: ` and continues past it |
| DataContext.Thrown | src/store/DataContext.tsx:29-36 | a rejected fetch throws its own reason; a non-ok status throws an `Error` with the HTTP message; an ok status throws only when the body does not parse, with the parse error's message |
| DataContext.StoredMessage | src/store/DataContext.tsx:147 | a thrown `Error` is stored with its own message, and any other thrown value as `An unknown error occurred` |
| DataContext.Settle | src/store/DataContext.tsx:26-150 | settling always ends loading; a success exposes the parsed document and leaves the error as it was; a failure exposes the fallback and stores the thrown value's message |
| DataContext.ShowsLoader | src/pages/AICapabilities.tsx:13-15 | a page shows the loader while loading or while `data` is null or undefined, and renders once loading is over with an object or array (the same guard stands at IndiaResearch.tsx:14, Internships.tsx:12, LearningPaths.tsx:17 and Resources.tsx:12) |
| DataContext.DataProvider.constructor | src/store/DataContext.tsx:21-23 | the provider starts with `data` null, `loading` true and `error` null, the same value as the context default |
| DataContext.DataProvider.FetchData | src/store/DataContext.tsx:26-151 | after the try, catch and finally blocks the state is the settled state of the outcome: the parsed document on success, otherwise the fallback and the stored message; `loading` is false in both |
| DataContext.DataProvider.RunEffects | src/store/DataContext.tsx:25-154 | the mount effect loads on its first run only; every later run leaves the state unchanged, so nothing is retried |
| DataContext.SettleFromDefault | src/store/DataContext.tsx:10-14 | from the initial state settling ends loading, and the error is set exactly when the load fails |
| DataContext.SuccessExposesDocument | src/store/DataContext.tsx:33-35 | with an ok status and a parsed body the exposed data is exactly that document and the error is left untouched |
| DataContext.HttpErrorNamesStatus | src/store/DataContext.tsx:30-32 | a non-ok status fails even when the body would parse; the data is the fallback and the status can be read back from the message |
| DataContext.HttpErrorMessageInjective | src/store/DataContext.tsx:31 | different statuses give different messages |
| DataContext.FailureUsesFallback | src/store/DataContext.tsx:36-147 | every failure stores the fallback and an error; a thrown `Error` keeps its message and any other thrown value becomes `An unknown error occurred` |
| DataContext.SettledPagesRender | src/pages/AICapabilities.tsx:13-15 | once the `finally` block at DataContext.tsx:148-150 has cleared `loading`, the `loading \|\| !data` guard of every page (also IndiaResearch.tsx:14, Internships.tsx:12, LearningPaths.tsx:17, Resources.tsx:12) shows the loader exactly when the load succeeded with a falsy document; after a failure data is never null; before settling the loader shows |
| DataContext.FailedLoadBreaksOnlyInternships | src/store/DataContext.tsx:39-145 | after any failure the capabilities, India research, learning paths and resources pages read all their lists, and the Internships page's first render throws |
| DataContext.ConformingLoadRenders | src/store/DataContext.tsx:33-35 | after a successful load of a document of the declared shape every page reads all of its lists |
| Js.Or | src/pages/Home.tsx:30 | `a \|\| b` is `a` when `a` is truthy and `b` otherwise |
| Js.Decimal | src/store/DataContext.tsx:31 | the status rendered in a template string is a non-empty run of digits with no leading zero |
| Js.DecimalRoundTrip | src/store/DataContext.tsx:31 | a rendered status reads back as the same number |
| Js.DecimalInjective | src/store/DataContext.tsx:31 | distinct numbers render to distinct strings |
| Schema.DecodeAll | src/types/index.ts:13-21 | a typed list decodes exactly when every element decodes, into a list of the same length, element for element |
| FallbackDocument.FallbackSections | src/store/DataContext.tsx:39-145 | the fallback holds its five sections under the five top-level keys |
| FallbackDocument.CapabilitiesConform | src/store/DataContext.tsx:41-61 | the capabilities section matches its declared type: its description, the single collective term and three placeholder categories with no technologies |
| FallbackDocument.IndiaConforms | src/store/DataContext.tsx:62-82 | the India section matches its declared type: four titled groups with no institutions |
| FallbackDocument.ResourcesConform | src/store/DataContext.tsx:122-144 | the resources section matches its declared type: five titled lists with no entries |
| FallbackDocument.FallbackSectionsConform | src/store/DataContext.tsx:41-144 | the fallback's capabilities, India and resources sections decode to their own texts with empty lists |
| FallbackDocument.InternshipsDoNotConform | src/store/DataContext.tsx:86-101 | neither the strategies, the action plan, the background section, the student tips nor the whole internship section decode against their declared types |
| FallbackDocument.LearningPathsDoNotConform | src/store/DataContext.tsx:103-121 | a path with only `title` and `phases` decodes as the first path's type but not as the described path type, so the learning paths section does not decode |
| FallbackDocument.DocumentDoesNotConform | src/store/DataContext.tsx:83-102 | any document with this internship section fails to decode as a database |
| FallbackDocument.FallbackDoesNotConform | src/store/DataContext.tsx:39-145 | the fallback as a whole, its internship section and its learning paths section do not match the declared schema |
| FallbackDocument.CapabilitiesSectionReads | src/store/DataContext.tsx:41-61 | on this section the capabilities page reads one collective term and three empty technology lists |
| FallbackDocument.IndiaSectionReads | src/store/DataContext.tsx:62-82 | on this section the India research page reads four empty institution lists |
| FallbackDocument.LearningPathsSectionReads | src/store/DataContext.tsx:103-121 | on this section the learning paths page reads four empty phase lists |
| FallbackDocument.ResourcesSectionReads | src/store/DataContext.tsx:122-144 | on this section the resources page reads five empty lists |
| FallbackDocument.InternshipsSectionReads | src/store/DataContext.tsx:83-102 | of the Internships page's seven list reads on this section, the application tips and the months succeed and the other five throw |
| FallbackDocument.InternshipsSectionSubstitutes | src/store/DataContext.tsx:86-101 | in place of the declared lists, each of the five strategies and the student tips carry an empty `tips` list, and the background section an empty `backgrounds` list |
| FallbackDocument.FallbackCapabilitiesReads | src/store/DataContext.tsx:41-61 | the capabilities page's reads on the fallback succeed: one collective term, empty technology lists |
| FallbackDocument.FallbackIndiaResearchReads | src/store/DataContext.tsx:62-82 | every institution list the India research page reads on the fallback is empty |
| FallbackDocument.FallbackLearningPathsReads | src/store/DataContext.tsx:103-121 | every phase list the learning paths page reads on the fallback is empty |
| FallbackDocument.FallbackResourcesReads | src/store/DataContext.tsx:122-144 | every list the resources page reads on the fallback is empty |
| FallbackDocument.FallbackInternshipsReads | src/store/DataContext.tsx:83-102 | on the fallback the Internships page's reads of the tips and months succeed and the other five throw, including the one made on the first render |
| FallbackDocument.FallbackInternshipsSubstitutes | src/store/DataContext.tsx:86-101 | the fallback carries empty `tips` and `backgrounds` lists where the page expects `components`, `categories` and `points` |
| PageReads.CapabilitiesSafe | src/pages/AICapabilities.tsx:43-57 | a capabilities section of the declared type lets the page read the collective terms and all three technology lists |
| PageReads.IndiaResearchSafe | src/pages/IndiaResearch.tsx:29-79 | an India section of the declared type lets the page read all four institution lists |
| PageReads.StrategiesLists | src/types/index.ts:205-218 | well-shaped application strategies each have a `components` list |
| PageReads.InternshipsLists | src/types/index.ts:205-218 | a well-shaped internship section has every list the Internships page maps over |
| PageReads.InternshipsSafe | src/pages/Internships.tsx:105-335 | when those lists are present the Internships page reads all seven of them, on every tab |
| PageReads.LearningPathsSafe | src/pages/LearningPaths.tsx:208-250 | a learning paths section of the declared type lets the page read all four phase lists |
| PageReads.ResourcesSafe | src/pages/Resources.tsx:102-224 | a resources section of the declared type lets the page read its five lists |
| PageReads.ConformingDocumentIsSafe | src/types/index.ts:328-334 | a document of the declared database type lets every page read every list it maps over |
| AICapabilitiesPage.AllCategories | src/pages/AICapabilities.tsx:20-40 | four options, 'all' first with no description, then memory, agentic and other, each with its category's title and description |
| AICapabilitiesPage.Category | src/pages/AICapabilities.tsx:43-51 | the ids 'memory', 'agentic' and 'other' select the memory, agentic and other categories |
| AICapabilitiesPage.GetTechnologies | src/pages/AICapabilities.tsx:43-57 | every technology shown belongs to one of the three categories, and no more are shown than the three hold together |
| AICapabilitiesPage.Find | src/pages/AICapabilities.tsx:61 | `find` returns the first option with that id, or none when no option has it |
| AICapabilitiesPage.GetActiveDescription | src/pages/AICapabilities.tsx:60-63 | the description shown is the top-level one or one of the three categories' own, and it is empty only when the top-level one is |
| AICapabilitiesPage.TechnologiesByCategory | src/pages/AICapabilities.tsx:43-57 | each category id yields exactly that category's list; 'all' and any unknown id yield memory, agentic and other concatenated in that order |
| AICapabilitiesPage.AllHoldsEveryCategory | src/pages/AICapabilities.tsx:52-56 | the 'all' list is as long as the three lists together and contains every technology of each category |
| AICapabilitiesPage.ActiveDescription | src/pages/AICapabilities.tsx:60-63 | 'all' and unknown ids show the top-level description; a category id shows its own, or the top-level one when its own is empty |
| AICapabilitiesPage.OptionsMatchSwitch | src/pages/AICapabilities.tsx:20-57 | each category button shows its own category's list, and the 'all' button shows the initial view |
| AICapabilitiesPage.InitialView | src/pages/AICapabilities.tsx:11 | the first render shows all technologies in order under the top-level description |
| IndiaResearchPage.CategoryOptions | src/pages/IndiaResearch.tsx:21-27 | five options in the order all, government, academic, public-private, industry, named after their groups' titles |
| IndiaResearchPage.Tag | src/pages/IndiaResearch.tsx:34-37 | tagging keeps the list's length and order and sets `type` on each record |
| IndiaResearchPage.TagOf | src/pages/IndiaResearch.tsx:33-56 | each of the four group ids tags its institutions with one of the four card types; every id but 'public-private' tags with itself |
| IndiaResearchPage.GetFilteredInstitutions | src/pages/IndiaResearch.tsx:29-79 | a group id yields as many institutions as that group holds; 'all' and unknown ids yield as many as the four groups together |
| IndiaResearchPage.TagKeepsOtherFields | src/pages/IndiaResearch.tsx:34-37 | tagging sets `type` to the tag and keeps every other field of each record unchanged |
| IndiaResearchPage.SingleGroup | src/pages/IndiaResearch.tsx:33-56 | a single group yields its own institutions one for one and in order; 'public-private' tags them 'partnership' |
| IndiaResearchPage.AllGroups | src/pages/IndiaResearch.tsx:57-75 | 'all' and unknown ids yield the four tagged groups concatenated, government, academic, partnership, industry, with the summed length |
| IndiaResearchPage.TagTypes | src/pages/IndiaResearch.tsx:34-37 | every record of a tagged list carries that tag |
| IndiaResearchPage.ProducedTypes | src/pages/IndiaResearch.tsx:31-76 | whatever the active id, every institution shown has a type among government, academic, partnership and industry |
| IndiaResearchPage.OptionsMatchSwitch | src/pages/IndiaResearch.tsx:21-56 | each non-'all' button shows exactly its own tagged group, and the first option is the initial 'all' |
| InstitutionCard.TypeStylesDistinct | src/components/ui/InstitutionCard.tsx:19-47 | the four types get four distinct gradients and four distinct icons, none of them the default |
| InstitutionCard.TypeColor | src/components/ui/InstitutionCard.tsx:19-32 | the gradient is a non-default one exactly for the four types government, academic, industry and partnership |
| InstitutionCard.TypeIcon | src/components/ui/InstitutionCard.tsx:35-48 | the icon is a non-default one exactly for the four types government, academic, industry and partnership |
| InstitutionCard.UnknownTypeStyle | src/components/ui/InstitutionCard.tsx:19-47 | any other type gets the primary gradient and the microscope icon |
| InstitutionCard.IndiaResearchTagsStyled | src/components/ui/InstitutionCard.tsx:19-47 | every institution the India research page lists reaches a non-default branch of both switches |
| InstitutionCard.ToggleTwiceRestores | src/components/ui/InstitutionCard.tsx:57 | a toggle always changes the state, and two toggles restore it |
| InstitutionCard.Toggled | src/components/ui/InstitutionCard.tsx:57 | a toggle always yields the other state |
| InstitutionCard.CardState.constructor | src/components/ui/InstitutionCard.tsx:13 | the card starts collapsed |
| InstitutionCard.CardState.Click | src/components/ui/InstitutionCard.tsx:57 | a click flips `isExpanded` |
| InstitutionCard.CardState.DetailsShown | src/components/ui/InstitutionCard.tsx:89 | the details panel shows only on an expanded card; an expanded card shows object or array details, and no card shows undefined or null details |
| InstitutionCard.InstitutionDetailsShown | src/components/ui/InstitutionCard.tsx:89 | with an institution record as details the panel shows exactly when the card is expanded; with no details it never shows |
| HomePage.OptionalChain | src/pages/Home.tsx:30 | optional chaining on a nullish `data` yields undefined without throwing |
| HomePage.SectionDescription | src/pages/Home.tsx:30-51 | with no data a section card's description is ''; whatever it reads, it is never a falsy value other than '' |
| HomePage.PhaseCount | src/pages/Home.tsx:63-84 | with no data a path card's phase count is 0; whatever it reads, it is never a falsy value other than 0 |
| HomePage.Sections | src/pages/Home.tsx:27-56 | four section cards whose paths are `/capabilities`, `/india-research`, `/internships` and `/learning-paths`, in that order |
| HomePage.LearningPathSummaries | src/pages/Home.tsx:59-88 | four path cards with their anchors and the colours primary, purple, blue and green, in that order |
| HomePage.HomeWithoutData | src/pages/Home.tsx:27-88 | with no data nothing throws, every description is '' and every phase count is 0 |
| HomePage.DescriptionAt | src/pages/Home.tsx:30 | where a section has a string description, the card shows that string |
| HomePage.PhaseCountAt | src/pages/Home.tsx:63 | where a path has a phase list, the card shows its length |
| HomePage.DatabaseSections | src/types/index.ts:328-334 | a well-shaped database has its four displayed sections, well shaped, under their keys |
| HomePage.CapabilitiesDescription | src/pages/Home.tsx:30 | the capabilities card shows the section's declared description |
| HomePage.IndiaDescription | src/pages/Home.tsx:37 | the India card shows the section's declared description |
| HomePage.InternshipsDescription | src/pages/Home.tsx:44 | the internships card shows the section's declared description |
| HomePage.LearningPathsDescription | src/pages/Home.tsx:51 | the learning paths card shows the section's declared description |
| HomePage.HomeSectionsOnConformingDocument | src/pages/Home.tsx:27-56 | on a well-shaped document each section card shows its section's description |
| HomePage.PathPhaseCounts | src/pages/Home.tsx:63-84 | on well-shaped learning paths each phase count is the length of that path's phase list |
| HomePage.HomePathsOnConformingDocument | src/pages/Home.tsx:59-88 | on a well-shaped document each path card counts its path's phases |
| HomePage.SectionsFrom | src/pages/Home.tsx:27-56 | the section cards carry the four description reads, in order |
| HomePage.FallbackCapabilitiesDescription | src/store/DataContext.tsx:42 | on the fallback the capabilities card shows the fallback's description |
| HomePage.FallbackIndiaDescription | src/store/DataContext.tsx:63 | on the fallback the India card shows the fallback's description |
| HomePage.FallbackInternshipsDescription | src/store/DataContext.tsx:84 | on the fallback the internships card shows the fallback's description |
| HomePage.FallbackLearningPathsDescription | src/store/DataContext.tsx:104 | on the fallback the learning paths card shows the fallback's description |
| HomePage.FallbackCapabilitiesPhaseCount | src/store/DataContext.tsx:107 | on the fallback the AI capabilities path card counts 0 phases |
| HomePage.FallbackCuttingEdgePhaseCount | src/store/DataContext.tsx:111 | on the fallback the cutting-edge path card counts 0 phases |
| HomePage.FallbackBrainCognitionPhaseCount | src/store/DataContext.tsx:115 | on the fallback the brain and cognition path card counts 0 phases |
| HomePage.FallbackMergedPhaseCount | src/store/DataContext.tsx:119 | on the fallback the AI and neuroscience path card counts 0 phases |
| HomePage.HomeSectionsOnFallback | src/pages/Home.tsx:27-56 | after a failed load the section cards show the fallback's four descriptions |
| HomePage.HomePathsOnFallback | src/pages/Home.tsx:59-88 | after a failed load every path card counts 0 phases |
| HomePage.AnchorsMatchLearningPathsPage | src/pages/Home.tsx:64-85 | each path card links to the learning paths page's section id for that path, in the page's order |
| HomePage.PathCardGradients | src/pages/Home.tsx:65-86 | the colours the home page passes never reach the card's red branch, and 'primary' gets the default gradient |
| LearningPathCard.GradientsDistinct | src/components/ui/LearningPathCard.tsx:28-41 | blue, purple, green and red get four distinct gradients, none of them the primary one; every other colour gets the primary one |
| LearningPathCard.Gradient | src/components/ui/LearningPathCard.tsx:28-41 | the gradient differs from the primary one exactly for the named colours blue, purple, green and red |
| LearningPathCard.HoverState.constructor | src/components/ui/LearningPathCard.tsx:22 | the card starts not hovered |
| LearningPathCard.HoverState.HoverStart | src/components/ui/LearningPathCard.tsx:50 | hover start sets the flag |
| LearningPathCard.HoverState.HoverEnd | src/components/ui/LearningPathCard.tsx:51 | hover end clears the flag |
| NeuralNetwork.NodeSpec | src/components/three/NeuralNetworkVisualization.tsx:129-148 | a layer has exactly `nodeCount` nodes indexed 0 to nodeCount-1, labelled `<name>-<i>`, pulsating exactly when `i % 3 == 0` |
| NeuralNetwork.Row | src/components/three/NeuralNetworkVisualization.tsx:156-175 | one source node draws `min(3, target.nodeCount)` connections |
| NeuralNetwork.LayerProps.constructor | src/components/three/NeuralNetworkVisualization.tsx:250-255 | a layer starts with its name and node count and no target |
| NeuralNetwork.RenderLayer | src/components/three/NeuralNetworkVisualization.tsx:122-177 | the loops push exactly the layer's nodes, and connections only when there is a target layer |
| NeuralNetwork.ConnSpec | src/components/three/NeuralNetworkVisualization.tsx:151-177 | a layer with a target draws `nodeCount * min(3, target.nodeCount)` connections |
| NeuralNetwork.ConnectionShape | src/components/three/NeuralNetworkVisualization.tsx:151-177 | every connection starts at a drawn node and ends at node `(i + j) % t`, which exists in the target layer; it is animated exactly when its source index is even |
| NeuralNetwork.RowShape | src/components/three/NeuralNetworkVisualization.tsx:156-175 | each connection of node `i` starts at `i`, uses a slot below the fan-out, ends at node `(i + j) % t`, which exists, and animates exactly when `i` is even |
| NeuralNetwork.ShapeOf | src/components/three/NeuralNetworkVisualization.tsx:156-158 | a drawn connection's slot is below the target's node count and its target is `(source + slot) % t` |
| NeuralNetwork.TargetsDistinct | src/components/three/NeuralNetworkVisualization.tsx:156-158 | the connections leaving one node end at pairwise distinct target nodes |
| NeuralNetwork.EmptyTargetNoConnections | src/components/three/NeuralNetworkVisualization.tsx:156-158 | a target with no nodes gets no connections, so no modulo by zero happens |
| NeuralNetwork.LabelsDistinct | src/components/three/NeuralNetworkVisualization.tsx:144 | node labels within a layer are pairwise distinct |
| NeuralNetwork.ChainLayers | src/components/three/NeuralNetworkVisualization.tsx:258-260 | every layer but the last points at its successor, and the last keeps the target it had |
| NeuralNetwork.ChainConnections | src/components/three/NeuralNetworkVisualization.tsx:258-281 | a chain of fewer than two layers draws no connection |
| NeuralNetwork.NoConnections | src/components/three/NeuralNetworkVisualization.tsx:258-281 | a chain draws no connection exactly when no two adjacent layers are both non-empty |
| NeuralNetwork.SceneConnections | src/components/three/NeuralNetworkVisualization.tsx:250-260 | layers of 8, 12, 10 and 6 nodes draw 90 connections |
| NeuralNetwork.RenderChain | src/components/three/NeuralNetworkVisualization.tsx:279-281 | rendering a chained list of layers draws the chain's total number of connections |
| NeuralNetwork.NeuralNetworkScene | src/components/three/NeuralNetworkVisualization.tsx:242-281 | the scene builds four layers of 8, 12, 10 and 6 nodes, chains them with the last left without a target, and draws 90 connections |
| ScrollAnimation.ApplyDefaults | src/components/ui/ScrollAnimation.tsx:120-130 | omitted props default to animation 'default', delay 0, threshold 0.1, once true, stagger false and staggerDelay 0.1, and `duration` stays undefined; props given are kept |
| ScrollAnimation.Animations | src/components/ui/ScrollAnimation.tsx:6-104 | every named variant fades from opacity 0 to 1 and animates the same style keys in both states; all but the stagger container carry a duration |
| ScrollAnimation.CustomVariant | src/components/ui/ScrollAnimation.tsx:142-157 | the merge keeps the variant's hidden and visible styles; with duration and delay falsy it is the variant itself, otherwise the visible transition's delay is the prop's |
| ScrollAnimation.StaggerVariant | src/components/ui/ScrollAnimation.tsx:160-170 | with stagger the hidden style is the container's and the visible transition has exactly `staggerChildren` and `delayChildren`; without it the hidden style is the variant's |
| ScrollAnimation.PassThrough | src/components/ui/ScrollAnimation.tsx:148-170 | with duration and delay falsy and no stagger, the named variant passes through unchanged |
| ScrollAnimation.CustomTransition | src/components/ui/ScrollAnimation.tsx:142-157 | with a truthy duration or delay the visible transition keeps the variant's other keys and takes `delay` and `duration` from the props; the styles are unchanged |
| ScrollAnimation.DelayOnlyClearsDuration | src/components/ui/ScrollAnimation.tsx:142-157 | a delay without a duration replaces the variant's own duration with undefined |
| ScrollAnimation.StaggerIgnoresAnimation | src/components/ui/ScrollAnimation.tsx:160-170 | with stagger the animation and duration are ignored and the children stagger by `staggerDelay` after `delay` |
| ScrollAnimation.HiddenUnchanged | src/components/ui/ScrollAnimation.tsx:148-170 | neither merge alters the hidden style |
| ScrollAnimation.ControlDecision | src/components/ui/ScrollAnimation.tsx:172-178 | in view starts 'visible', out of view without `once` starts 'hidden', out of view with `once` sends nothing; with `once` a visible element stays visible |
| ScrollAnimation.ControlCommand | src/components/ui/ScrollAnimation.tsx:172-178 | 'visible' is started exactly when in view, and 'hidden' exactly when out of view without `once` |
| ScrollAnimation.Controls.constructor | src/components/ui/ScrollAnimation.tsx:184 | the controls start at 'hidden' |
| ScrollAnimation.Controls.OnInViewChange | src/components/ui/ScrollAnimation.tsx:172-178 | the effect moves the controls to the label its command names, and leaves them where they are when it sends nothing |
| Loader.Step | src/components/ui/Loader.tsx:10-11 | a step never exceeds 100, never lowers progress, keeps 100 at 100, and raises progress by less than 15 when not capped |
| Loader.Steps | src/components/ui/Loader.tsx:8-13 | with no ticks the progress is unchanged; after one or more ticks it is at most 100 |
| Loader.Round | src/components/ui/Loader.tsx:64 | the nearest integer with halves rounded up, and in 0..100 for progress in [0, 100] |
| Loader.RunProperties | src/components/ui/Loader.tsx:8-13 | over any run of ticks progress stays in [0, 100], never decreases, and once 100 stays 100 |
| Loader.ProgressBar.constructor | src/components/ui/Loader.tsx:5 | progress starts at 0 |
| Loader.ProgressBar.Tick | src/components/ui/Loader.tsx:9-12 | one interval tick applies one step with its draw |
| Loader.ProgressBar.Run | src/components/ui/Loader.tsx:8-13 | a run of ticks leaves the progress the steps compute |
| Loader.ProgressBar.Percent | src/components/ui/Loader.tsx:64 | the percentage shown is `Math.round(progress)`, between 0 and 100 while progress stays in range |

## Left out

- Rendering, Tailwind classes and framer-motion animation in every page and component: they render what they are given.
- The Internships, Resources and LearningPaths pages are modelled only through the lists they map over (`PageReads`). Tabs, `scrollIntoView` and nested lists inside list elements are not modelled. Nested lists are read only when the outer list is non-empty, and it is empty on the fallback.
- List elements are decoded only where a page hands on their fields: technologies, collective terms and institutions. Other elements stay plain values.
- Object key order is not modelled: a record is a map. It is visible only in the card's `JSON.stringify` of its details.
- JSON numbers are integers in `Js.Value`. The loader and the animation props use reals: IEEE double rounding is not modelled.
- The real `fetch`, `response.json()` and console logging: the request is an input outcome.
- React's scheduling: the order in which the `setData`, `setError` and `setLoading` updates are batched is not modelled, and neither is the StrictMode double run of effects.
- Timers: the loader's 300 ms interval and its empty 500 ms timeout. Each tick is a call with its random draw as an argument.
- `useInView` and its `threshold`/`once` semantics: whether the element is in view is an input of the effect.
- ScrollAnimationItem and the named tables in `src/utils/animations.ts`: they are constant tables.
- The home page's parallax scroll listener and its background scene.
- 3D geometry: node and target positions (cosine and sine placement), colours, labels' visibility and React keys of the scene.
- The scene's data nodes, lights and camera.
- IndiaMap, AICapabilitiesGlobe, AnimatedBackground, Navbar, CustomCursor, Footer, Layout and the router: decorative scenes and DOM event handling.
- Build and deploy scripts and the API handler: file-system and HTTP I/O.
- NeuralNetwork.ChainLayers: requires the array to hold distinct layer objects. The scene's literal does; chaining an array that repeats an object is not modelled.
- NeuralNetwork.RenderLayer: states the node and connection lists, not the `positions` array the loop also fills.
- Loader.Round: JavaScript's rounding of doubles at very large magnitudes is not modelled.
