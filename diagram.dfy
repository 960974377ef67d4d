/**
 * The diagram view's controller (DiagramGenerator.js): the description, the
 * generated Mermaid source and the busy flag, plus the preview pane that the
 * render effect writes.  `handleGenerate` is split at its `await` into
 * `Generate` and `Complete`; the effect on `[diagram]` is `RenderEffect`,
 * with Mermaid as the oracle `render`.
 */
module Diagram {
  import opened Wrappers
  import opened Protocol
  import Text

  const AlertText := "構成図の生成に失敗しました。もう一度お試しください。"
  const FailureNotice := "<p style=\"color: red;\">図の表示に失敗しました</p>"

  /** What `mermaid.render` settles to. */
  datatype RenderOutcome = Rendered(svg: string) | RenderFailed

  /**
   * The contents of the preview container (`diagramRef.current.innerHTML`).
   * It is only mounted while `diagram` is non-empty, and starts out empty.
   */
  datatype Pane = Unmounted | Blank | Svg(svg: string) | Html(html: string)

  class DiagramController {
    const apiUrl: string
    const render: string -> RenderOutcome
    var description: string
    var diagram: string
    var isLoading: bool
    var pane: Pane
    /** Texts of the `alert` calls made so far. */
    var alerts: seq<string>
    var pending: Option<Post<DiagramBody>>

    /**
     * Busy exactly while a request is in flight, and no result is kept
     * meanwhile; the preview container exists exactly when there is a result.
     */
    ghost predicate Valid()
      reads this
    {
      (isLoading <==> pending.Some?) &&
      (pending.Some? ==> diagram == "" && pending.value.url == apiUrl + DiagramPath) &&
      (diagram == "" <==> pane == Unmounted)
    }

    constructor (env: Option<string>, render: string -> RenderOutcome)
      ensures Valid()
      ensures apiUrl == ApiUrlFromEnv(env) && this.render == render
      ensures description == "" && diagram == "" && !isLoading && alerts == [] && pending == None
    {
      apiUrl := ApiUrlFromEnv(env);
      this.render := render;
      description := "";
      diagram := "";
      isLoading := false;
      pane := Unmounted;
      alerts := [];
      pending := None;
    }

    /** The textarea's `onChange`. */
    method SetDescription(text: string)
      requires Valid()
      modifies this
      ensures Valid()
      ensures description == text
      ensures diagram == old(diagram) && isLoading == old(isLoading) && pane == old(pane)
      ensures alerts == old(alerts) && pending == old(pending)
    {
      description := text;
    }

    /**
     * `handleGenerate` up to the `await`.  A blank description or a busy
     * controller returns early and leaves every field, the previous result
     * included, as it was.  Otherwise the controller turns busy, clears the
     * result (which unmounts the preview) and sends the description as typed.
     */
    method Generate() returns (sent: Option<Post<DiagramBody>>)
      requires Valid()
      modifies this
      ensures Valid()
      ensures sent.None? <==> Text.IsBlank(old(description)) || old(isLoading)
      ensures sent.Some? <==> old(GenerateEnabled())
      ensures description == old(description) && alerts == old(alerts)
      ensures sent.None? ==>
        diagram == old(diagram) && isLoading == old(isLoading) && pane == old(pane) && pending == old(pending)
      ensures sent.Some? ==>
        sent.value == Post(apiUrl + DiagramPath, DiagramBody(old(description)))
        && isLoading && diagram == "" && pane == Unmounted && pending == sent
    {
      if Text.IsBlank(description) || isLoading {
        return None;
      }
      isLoading := true;
      diagram := "";
      pane := Unmounted;
      pending := Some(Post(apiUrl + DiagramPath, DiagramBody(description)));
      sent := pending;
    }

    /**
     * The settled request.  Success stores the returned source (mounting an
     * empty preview when it is non-empty); a rejection keeps the result empty
     * and raises one alert.  Either way the controller is idle again.
     */
    method Complete(outcome: Outcome<DiagramReply>)
      requires Valid() && isLoading
      modifies this
      ensures Valid()
      ensures !isLoading && pending == None && description == old(description)
      ensures outcome.Resolved? ==>
        diagram == outcome.data.diagram && alerts == old(alerts)
        && pane == (if diagram == "" then Unmounted else Blank)
      ensures outcome.Rejected? ==> diagram == "" && pane == Unmounted && alerts == old(alerts) + [AlertText]
    {
      match outcome {
        case Resolved(reply) =>
          diagram := reply.diagram;
          pane := if diagram == "" then Unmounted else Blank;
        case Rejected =>
          alerts := alerts + [AlertText];
      }
      isLoading := false;
      pending := None;
    }

    /**
     * The effect on `[diagram]`: with a non-empty source the pane shows the
     * rendered SVG, or the fixed failure notice when Mermaid rejects the
     * source; with an empty source nothing happens.  The source itself is
     * never changed, so the `<pre>` block keeps showing it.
     */
    method RenderEffect()
      requires Valid()
      modifies this
      ensures Valid()
      ensures diagram == old(diagram) && description == old(description) && isLoading == old(isLoading)
      ensures alerts == old(alerts) && pending == old(pending)
      ensures diagram == "" ==> pane == old(pane)
      ensures diagram != "" && render(diagram).Rendered? ==> pane == Svg(render(diagram).svg)
      ensures diagram != "" && render(diagram).RenderFailed? ==> pane == Html(FailureNotice)
    {
      if diagram != "" {
        pane := Blank;
        match render(diagram) {
          case Rendered(svg) => pane := Svg(svg);
          case RenderFailed => pane := Html(FailureNotice);
        }
      }
    }

    /** The `<pre>` block: the raw source, shown whenever there is one. */
    function ShownSource(): (r: Option<string>)
      reads this
      ensures r.Some? <==> diagram != ""
      ensures r.Some? ==> r.value == diagram
    {
      if diagram == "" then None else Some(diagram)
    }

    /** The generate button is enabled exactly when idle with a description that has a visible character. */
    predicate GenerateEnabled()
      reads this
      ensures GenerateEnabled() <==>
        !isLoading && exists i :: 0 <= i < |description| && !Text.IsWhitespace(description[i])
    {
      !(isLoading || Text.IsBlank(description))
    }
  }
}
