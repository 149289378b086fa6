/**
 * The prompt-augmentation pipeline of the proxy: fragments are collected from the
 * remote memory and then the vector memory, each failure isolated, and the
 * request's middleware re-renders the prompt only when it changed.
 */
module Proxy {
  import opened Wrappers

  /** What one memory provider's lookup came to: it threw, returned nothing, or returned fragments. */
  datatype Memory<P> = Threw | Nothing | Returned(items: seq<P>)

  /** What a provider adds to the prompt: its fragments, or nothing when it threw or returned nothing. */
  function Contribution<P>(m: Memory<P>): seq<P> {
    if m.Returned? then m.items else []
  }

  /**
   * The prompt updater: asks the remote memory, then the vector memory, and appends
   * what each returned to a local list. A provider that throws is caught and skipped.
   */
  method PromptUpdater<P>(remote: Memory<P>, vector: Memory<P>) returns (prompt: seq<P>)
    ensures prompt == Contribution(remote) + Contribution(vector)
    ensures remote.Returned? ==> prompt[..|remote.items|] == remote.items
    ensures vector.Returned? ==> prompt[|prompt| - |vector.items|..] == vector.items
    ensures !remote.Returned? ==> prompt == Contribution(vector)
    ensures !vector.Returned? ==> prompt == Contribution(remote)
    ensures prompt == [] <==> Contribution(remote) == [] && Contribution(vector) == []
  {
    prompt := [];

    match remote {
      case Returned(res1) =>
        prompt := prompt + res1;
      case Nothing =>
      case Threw =>
    }

    match vector {
      case Returned(res2) =>
        prompt := prompt + res2;
      case Nothing =>
      case Threw =>
    }
  }

  /**
   * The request's middleware, which owns the cumulative prompt: fragments are merged
   * into it, it remembers whether it changed since the last render, and renders it.
   */
  class Middleware<P> {
    /** Fragments merged into the request's prompt so far. */
    var prompt: seq<P>
    /** Whether the prompt changed since it was last rendered. */
    var updated: bool
    /** How many times the prompt has been rendered. */
    var renders: nat
    /** Turns the merged fragments into the final prompt text. */
    const render: seq<P> -> string

    constructor (render: seq<P> -> string)
      ensures prompt == [] && !updated && renders == 0
      ensures this.render == render
    {
      prompt := [];
      updated := false;
      renders := 0;
      this.render := render;
    }

    /** Merges the updater's fragments; any fragment marks the prompt as changed. */
    method AddRequest(fragments: seq<P>)
      modifies this
      ensures prompt == old(prompt) + fragments
      ensures updated == (old(updated) || fragments != [])
      ensures renders == old(renders)
    {
      prompt := prompt + fragments;
      updated := updated || fragments != [];
    }

    predicate IsRequestUpdated()
      reads this
    {
      updated
    }

    method RenderRequest() returns (text: string)
      modifies this
      ensures text == render(prompt)
      ensures prompt == old(prompt) && !updated && renders == old(renders) + 1
    {
      text := render(prompt);
      updated := false;
      renders := renders + 1;
    }
  }

  /**
   * Runs the updater through the middleware, then renders only if the middleware
   * reports a change; otherwise returns nothing and renders nothing.
   */
  method ProcessAIRequest<P>(mw: Middleware<P>, remote: Memory<P>, vector: Memory<P>) returns (text: Option<string>)
    modifies mw
    ensures mw.prompt == old(mw.prompt) + (Contribution(remote) + Contribution(vector))
    ensures var changed := old(mw.updated) || Contribution(remote) + Contribution(vector) != [];
      && text == (if changed then Some(mw.render(mw.prompt)) else None)
      && mw.renders == old(mw.renders) + (if changed then 1 else 0)
    ensures !mw.updated
  {
    var fragments := PromptUpdater(remote, vector);
    mw.AddRequest(fragments);
    if mw.IsRequestUpdated() {
      var rendered := mw.RenderRequest();
      text := Some(rendered);
    } else {
      text := None;
    }
  }
}
