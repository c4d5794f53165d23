/**
 * The live preview: which kind of document the generated code becomes. Code is classified as
 * React, Vue or plain HTML; React code loses its first `export default`, Vue code contributes
 * its first template block, and HTML is either written as is or wrapped in a page.
 */
module LivePreview {
  import opened Wrappers
  import opened Text

  datatype Framework = ReactCode | VueCode | HtmlCode

  predicate LooksLikeReact(code: string) {
    Contains(code, "import React") || Contains(code, "export default function")
  }

  predicate LooksLikeVue(code: string) {
    Contains(code, "<template>") || Contains(code, "<script setup>")
  }

  /** The classification; empty code writes nothing. React markers win over Vue markers. */
  function Classify(code: string): (r: Option<Framework>)
    ensures r.None? <==> code == ""
    ensures r == Some(ReactCode) <==> code != "" && LooksLikeReact(code)
    ensures r == Some(VueCode) <==> code != "" && !LooksLikeReact(code) && LooksLikeVue(code)
    ensures r == Some(HtmlCode) <==> code != "" && !LooksLikeReact(code) && !LooksLikeVue(code)
  {
    if code == "" then None
    else if LooksLikeReact(code) then Some(ReactCode)
    else if LooksLikeVue(code) then Some(VueCode)
    else Some(HtmlCode)
  }

  // `.replace(/export\s+default\s+/, '')`: the leftmost match, each `\s+` taking the longest run.

  /** A match of `export\s+default\s+` starts at `i`. */
  predicate ExportDefaultAt(s: string, i: nat) {
    && OccursAt(s, "export", i)
    && i + 6 < |s| && IsWhitespace(s[i + 6])
    && var b := RunEnd(s, i + 6, IsWhitespace);
       OccursAt(s, "default", b) && b + 7 < |s| && IsWhitespace(s[b + 7])
  }

  /** Where a match starting at `i` ends. */
  function ExportDefaultEnd(s: string, i: nat): (e: nat)
    requires ExportDefaultAt(s, i)
    ensures i + 15 <= e <= |s|
    ensures e == |s| || !IsWhitespace(s[e])
  {
    var b := RunEnd(s, i + 6, IsWhitespace);
    RunEnd(s, b + 7, IsWhitespace)
  }

  /** The leftmost match at or after `k`. */
  function FirstExportDefault(s: string, k: nat): (r: Option<nat>)
    ensures r.Some? ==> k <= r.value && ExportDefaultAt(s, r.value)
    ensures r.Some? ==> forall j | k <= j < r.value :: !ExportDefaultAt(s, j)
    ensures r.None? ==> forall j | k <= j :: !ExportDefaultAt(s, j)
    decreases |s| - k
  {
    if k >= |s| then
      assert forall j | k <= j :: !OccursAt(s, "export", j);
      None
    else if ExportDefaultAt(s, k) then Some(k)
    else FirstExportDefault(s, k + 1)
  }

  /** The code with its first `export default` (and the whitespace after it) removed. */
  function RemoveExportDefault(s: string): (r: string)
    ensures FirstExportDefault(s, 0).None? ==> r == s
    ensures FirstExportDefault(s, 0).Some? ==>
              var i := FirstExportDefault(s, 0).value;
              r == s[..i] + s[ExportDefaultEnd(s, i)..] && |r| <= |s| - 15
  {
    match FirstExportDefault(s, 0)
    case None => s
    case Some(i) => s[..i] + s[ExportDefaultEnd(s, i)..]
  }

  // The Vue template: `/<template>([\s\S]*?)<\/template>/`, then `?.[1] || fallback`.

  const OpenTemplate: string := "<template>"
  const CloseTemplate: string := "</template>"
  const FallbackTemplate: string := "<div>Vue Template Error</div>"

  /** `i` is the first index where `<template>` occurs. */
  predicate FirstOpen(code: string, i: nat) {
    OccursAt(code, OpenTemplate, i) && forall l | 0 <= l < i :: !OccursAt(code, OpenTemplate, l)
  }

  /** `j` is the first index where `</template>` occurs after the `<template>` at `i`. */
  predicate CloseOf(code: string, i: nat, j: nat) {
    i + 10 <= j && OccursAt(code, CloseTemplate, j) && forall l | i + 10 <= l < j :: !OccursAt(code, CloseTemplate, l)
  }

  /**
   * The text of the first template block: from the first `<template>` to the first
   * `</template>` after it; the fallback when there is no such block or it is empty.
   */
  function VueTemplate(code: string): (r: string)
    ensures r != ""
    ensures !Contains(code, OpenTemplate) ==> r == FallbackTemplate
    ensures forall i: nat, j: nat | FirstOpen(code, i) && CloseOf(code, i, j) ::
              r == if i + 10 < j then code[i + 10..j] else FallbackTemplate
    ensures forall i: nat | FirstOpen(code, i) && (forall l | i + 10 <= l :: !OccursAt(code, CloseTemplate, l)) ::
              r == FallbackTemplate
    ensures r != FallbackTemplate ==>
              exists i: nat, j: nat :: FirstOpen(code, i) && CloseOf(code, i, j) && i + 10 < j && r == code[i + 10..j]
  {
    match IndexOf(code, OpenTemplate)
    case None => FallbackTemplate
    case Some(i) =>
      match IndexFrom(code, CloseTemplate, i + 10)
      case None => FallbackTemplate
      case Some(j) =>
        assert FirstOpen(code, i) && CloseOf(code, i, j);
        if j > i + 10 then code[i + 10..j] else FallbackTemplate
  }

  const PageStart: string := "\n                    <!DOCTYPE html>\n                    "
  const PageRest: string := ">\n                    <head>\n                        <script src=\"https://cdn.tailwindcss.com\"></script>\n                    </head>\n                    <body>"
  /** The text before the code: a doctype, `<html>`, a head loading Tailwind, and `<body>`. */
  const HtmlHead: string := PageStart + "<html" + PageRest
  const HtmlTail: string := "</body>\n                    </html>\n                "

  /** Plain HTML: a full document is written as is; anything else goes inside the body of a page. */
  function HtmlPage(code: string): (r: string)
    ensures Contains(code, "<html") ==> r == code
    ensures !Contains(code, "<html") ==> r == HtmlHead + code + HtmlTail
  {
    if Contains(code, "<html") then code else HtmlHead + code + HtmlTail
  }

  /** Wrapping is idempotent: a wrapped page is a full document and is written as is. */
  lemma HtmlPageIdempotent(code: string)
    ensures HtmlPage(HtmlPage(code)) == HtmlPage(code)
  {
    if !Contains(code, "<html") {
      ContainsSelf("<html");
      ContainsInContext(PageStart, "<html", PageRest + code + HtmlTail, "<html");
      Regroup(PageStart, "<html", PageRest, code, HtmlTail);
    }
  }

  /** The wrapped page, grouped around its `<html`. */
  lemma Regroup(start: string, tag: string, rest: string, code: string, tail: string)
    ensures start + tag + (rest + code + tail) == (start + tag + rest) + code + tail
  {
  }

  /** What is written into the preview frame. The React and Vue page scaffolding around the code is fixed text. */
  datatype Document = ReactDocument(script: string) | VueDocument(template: string) | HtmlDocument(html: string)

  /**
   * The preview; `stripImports` stands for the global import-removing replacement the React
   * branch applies before removing `export default`.
   */
  function Preview(code: string, stripImports: string -> string): (r: Option<Document>)
    ensures r.None? <==> code == ""
    ensures r.Some? && r.value.ReactDocument? <==> code != "" && LooksLikeReact(code)
    ensures r.Some? && r.value.VueDocument? <==> code != "" && !LooksLikeReact(code) && LooksLikeVue(code)
    ensures r.Some? && r.value.ReactDocument? ==> r.value.script == RemoveExportDefault(stripImports(code))
    ensures r.Some? && r.value.VueDocument? ==> r.value.template == VueTemplate(code)
    ensures r.Some? && r.value.HtmlDocument? ==> r.value.html == HtmlPage(code)
  {
    match Classify(code)
    case None => None
    case Some(ReactCode) => Some(ReactDocument(RemoveExportDefault(stripImports(code))))
    case Some(VueCode) => Some(VueDocument(VueTemplate(code)))
    case Some(HtmlCode) => Some(HtmlDocument(HtmlPage(code)))
  }
}
