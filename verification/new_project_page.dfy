/**
 * The new-conversion page: plan gating, the generate and save guards, the language menu,
 * the source tabs and the download file name. The page's state is a record and each handler
 * a function of it; the alert, the navigation and the fetch appear as returned actions.
 */
module NewProjectPage {
  import opened Wrappers
  import opened Text
  import opened Domain
  import opened ProjectsContext

  /** The tabs a design can come from. */
  datatype SourceType = UploadSource | FigmaSource | UrlSource

  function SourceName(t: SourceType): string {
    match t
    case UploadSource => "upload"
    case FigmaSource => "figma"
    case UrlSource => "url"
  }

  function LanguageName(l: Language): string {
    match l
    case React => "react"
    case Vue => "vue"
    case Html => "html"
  }

  /** An uploaded file: its name and the data URL `readAsDataURL` gives for it. */
  datatype UploadedFile = UploadedFile(name: string, dataUrl: string)

  /** The page's state. */
  datatype Page = Page(
    file: Option<UploadedFile>,
    fetchedImage: Option<string>,
    sourceType: SourceType,
    isGenerating: bool,
    generatedCode: Option<string>,
    language: Language,
    projectName: string,
    dropdownOpen: bool)

  /** The page as first rendered: React selected, nothing uploaded. */
  function InitialPage(): Page {
    Page(None, None, UploadSource, false, None, React, "", false)
  }

  /** `userPlan === 'pro' || userPlan === 'enterprise'` on the session-over-store plan. */
  function IsPro(sessionPlan: Option<string>, contextPlan: Plan): (r: bool)
    ensures Truthy(sessionPlan) ==> (r <==> sessionPlan.value == ProName || sessionPlan.value == EnterpriseName)
    ensures !Truthy(sessionPlan) && ValidPlan(contextPlan) ==> (r <==> contextPlan == Pro || contextPlan == Enterprise)
    ensures ValidPlan(contextPlan) ==> (r <==> EffectivePlan(sessionPlan, contextPlan) in {Pro, Enterprise})
  {
    var name := PlanName(EffectivePlan(sessionPlan, contextPlan));
    name == ProName || name == EnterpriseName
  }

  /** React and Vue are pro features; HTML is open to every plan. */
  predicate ProOnly(l: Language) {
    l == React || l == Vue
  }

  /** A design is present: an uploaded file or a fetched image. */
  predicate HasSource(p: Page) {
    p.file.Some? || Truthy(p.fetchedImage)
  }

  /** The body posted to the generate route. */
  datatype GenerateBody = GenerateBody(imageBase64: string, language: string, description: string)

  datatype GenerateAction = GenerateSkipped | RedirectToPricing | SendGenerate(body: GenerateBody)

  datatype GenerateStep = GenerateStep(action: GenerateAction, page: Page)

  /** The image sent: the fetched image when there is one, otherwise the uploaded file's data URL. */
  function ImageSource(p: Page): (image: string)
    requires HasSource(p)
    ensures Truthy(p.fetchedImage) ==> image == p.fetchedImage.value
    ensures !Truthy(p.fetchedImage) ==> image == p.file.value.dataUrl
  {
    if Truthy(p.fetchedImage) then p.fetchedImage.value else p.file.value.dataUrl
  }

  /** `handleGenerate` up to the request: the guards, the plan gate, then the request it sends. */
  function HandleGenerate(p: Page, pro: bool): (r: GenerateStep)
    ensures !HasSource(p) || IsBlank(p.projectName) ==> r == GenerateStep(GenerateSkipped, p)
    ensures HasSource(p) && !IsBlank(p.projectName) && !pro && ProOnly(p.language) ==>
              r == GenerateStep(RedirectToPricing, p)
    ensures r.action.SendGenerate? <==> HasSource(p) && !IsBlank(p.projectName) && (pro || p.language == Html)
    ensures r.action.SendGenerate? ==>
              && r.action.body.imageBase64 == ImageSource(p)
              && r.action.body.language == LanguageName(p.language)
              && r.action.body.description == "Generated from " + SourceName(p.sourceType) + ". Project: " + p.projectName
              && r.page == p.(isGenerating := true, generatedCode := None)
  {
    TrimEmptyIffBlank(p.projectName);
    if !HasSource(p) || Trim(p.projectName) == "" then GenerateStep(GenerateSkipped, p)
    else if !pro && ProOnly(p.language) then GenerateStep(RedirectToPricing, p)
    else
      var description := "Generated from " + SourceName(p.sourceType) + ". Project: " + p.projectName;
      GenerateStep(SendGenerate(GenerateBody(ImageSource(p), LanguageName(p.language), description)),
                   p.(isGenerating := true, generatedCode := None))
  }

  /** What the generate call came back with. */
  datatype GenerateResult = CodeReceived(code: string) | Rejected(error: Option<string>) | Failed(message: string)

  /** The `try`/`catch`/`finally` after the request: the new page and the alert shown, if any. */
  datatype Finished = Finished(page: Page, alert: Option<string>)

  const GenerateFailedText: string := "Failed to generate code"
  const GenerateWentWrong: string := "Something went wrong during code generation."

  function FinishGenerate(p: Page, result: GenerateResult): (r: Finished)
    ensures !r.page.isGenerating
    ensures result.CodeReceived? <==> r.alert.None?
    ensures result.CodeReceived? ==> r.page == p.(isGenerating := false, generatedCode := Some(result.code))
    ensures !result.CodeReceived? ==> r.page == p.(isGenerating := false) && r.alert.value != ""
    ensures result.Rejected? ==> r.alert == Some(if Truthy(result.error) then result.error.value else GenerateFailedText)
  {
    match result
    case CodeReceived(code) => Finished(p.(isGenerating := false, generatedCode := Some(code)), None)
    case Rejected(error) =>
      Finished(p.(isGenerating := false), Some(if Truthy(error) then error.value else GenerateFailedText))
    case Failed(message) =>
      Finished(p.(isGenerating := false), Some(if message != "" then message else GenerateWentWrong))
  }

  /** A click on a language option: a pro-only option for a non-pro user redirects instead of selecting. */
  datatype Choice = Choice(page: Page, redirected: bool)

  function SelectLanguage(p: Page, option: Language, pro: bool): (r: Choice)
    ensures r.redirected <==> ProOnly(option) && !pro
    ensures r.redirected ==> r.page == p
    ensures !r.redirected ==> r.page.language == option && !r.page.dropdownOpen
    ensures r.page.(language := p.language, dropdownOpen := p.dropdownOpen) == p
  {
    if ProOnly(option) && !pro then Choice(p, true)
    else Choice(p.(language := option, dropdownOpen := false), false)
  }

  /** A series of menu clicks. */
  function SelectAll(p: Page, options: seq<Language>, pro: bool): Page
    decreases |options|
  {
    if options == [] then p
    else SelectAll(SelectLanguage(p, options[0], pro).page, options[1..], pro)
  }

  /** Whatever a non-pro user clicks, the selection is the one they started with or HTML. */
  lemma {:induction false} NonProSelections(p: Page, options: seq<Language>)
    ensures var q := SelectAll(p, options, false); q.language == p.language || q.language == Html
    decreases |options|
  {
    if options != [] {
      var p1 := SelectLanguage(p, options[0], false).page;
      NonProSelections(p1, options[1..]);
    }
  }

  /** `handleSave`: the draft handed to `addProject`, or nothing when a guard fails. */
  function HandleSave(p: Page): (r: Option<Draft>)
    ensures r.Some? <==> Truthy(p.generatedCode) && !IsBlank(p.projectName)
    ensures r.Some? ==>
              && r.value.name == p.projectName
              && r.value.code == p.generatedCode.value
              && r.value.language == p.language
              && r.value.description == "Generated from "
                   + (if p.file.Some? && p.file.value.name != "" then p.file.value.name else "screenshot")
  {
    TrimEmptyIffBlank(p.projectName);
    if !Truthy(p.generatedCode) || Trim(p.projectName) == "" then None
    else
      var source := if p.file.Some? && p.file.value.name != "" then p.file.value.name else "screenshot";
      Some(Draft(p.projectName, "Generated from " + source, p.language, p.generatedCode.value))
  }

  /** A guest's save lands at the head of the store with the page's name, language and code. */
  lemma GuestSaveHeadsStore(p: Page, s: Store, remote: RemoteCreate, freshId: string, createdAt: string,
                            format: string -> string)
    requires Truthy(p.generatedCode) && !IsBlank(p.projectName)
    ensures var m := AddProject(s, Unauthenticated, HandleSave(p).value, remote, freshId, createdAt, format);
            && !m.remoteAttempted
            && m.store.projects[0] == Project(freshId, p.projectName, HandleSave(p).value.description,
                                              p.language, p.generatedCode.value, createdAt)
            && m.store.projects[1..] == s.projects
  {
  }

  /** The code viewer's file name. */
  function Filename(l: Language): (name: string)
    ensures l == React ==> name == "GeneratedComponent.tsx"
    ensures l == Vue ==> name == "GeneratedComponent.vue"
    ensures l == Html ==> name == "index.html"
  {
    if l == React then "GeneratedComponent.tsx"
    else if l == Vue then "GeneratedComponent.vue"
    else "index.html"
  }

  /** Different languages download under different names. */
  lemma FilenameInjective(a: Language, b: Language)
    requires Filename(a) == Filename(b)
    ensures a == b
  {
  }

  /** A tab click: the source type changes and both the file and the fetched image are cleared. */
  function SwitchTab(p: Page, tab: SourceType): (r: Page)
    ensures r.sourceType == tab && r.file.None? && r.fetchedImage.None?
    ensures r.(sourceType := p.sourceType, file := p.file, fetchedImage := p.fetchedImage) == p
  {
    p.(sourceType := tab, file := None, fetchedImage := None)
  }

  /** Right after a tab switch there is nothing to generate from. */
  lemma SwitchTabBlocksGenerate(p: Page, tab: SourceType, pro: bool)
    ensures HandleGenerate(SwitchTab(p, tab), pro).action == GenerateSkipped
  {
  }
}
