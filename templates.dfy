/** The template library (components/Templates.tsx): the text copied for a
    template, and the list's loading and deletion. */
module Templates {
  import opened Js
  import opened Lists
  import opened Domain

  /** One checklist line. */
  function TaskLine(t: string): string
  {
    "[ ] " + t
  }

  /** `tasks.map(t => "[ ] " + t).join("\n")`. */
  function TaskList(tasks: seq<string>): string
  {
    Join(Map(tasks, TaskLine), "\n")
  }

  /** The first line starts with this, before the upper-cased title. */
  const TitlePrefix := "📋 TEMPLATE: "

  /** The lines above the checklist. */
  function Header(t: Template): seq<string>
  {
    [TitlePrefix + Upper(t.title), "---", t.description, "", "CHECKLIST:"]
  }

  /** The text `handleCopy` writes to the clipboard, line by line. */
  function CopyText(t: Template): (r: string)
    ensures TitlePrefix + Upper(t.title) + "\n---\n" + t.description <= r
    ensures t.tasks == [] ==> |r| >= 11 && r[|r| - 11..] == "CHECKLIST:\n"
  {
    var r := TitlePrefix + Upper(t.title) + "\n" + "---" + "\n" + t.description + "\n" + "" + "\n" + "CHECKLIST:" + "\n"
      + TaskList(t.tasks);
    assert "\n" + "---" + "\n" == "\n---\n";
    r
  }

  /** The copied text is the header and the checklist, one line each. */
  lemma CopyTextIsLines(t: Template)
    ensures CopyText(t) == Join(Header(t) + [TaskList(t.tasks)], "\n")
  {
    var h := Header(t);
    assert h + [TaskList(t.tasks)] == [h[0], h[1], h[2], h[3], h[4], TaskList(t.tasks)];
    JoinSix(h[0], h[1], h[2], h[3], h[4], TaskList(t.tasks));
  }

  /** Six lines joined by newlines, written left to right. */
  lemma JoinSix(a: string, b: string, c: string, d: string, e: string, f: string)
    ensures Join([a, b, c, d, e, f], "\n") == a + "\n" + b + "\n" + c + "\n" + d + "\n" + e + "\n" + f
  {
    var n := "\n";
    JoinCons(e, [f], n);
    JoinCons(d, [e, f], n);
    assert [d] + [e, f] == [d, e, f];
    JoinCons(c, [d, e, f], n);
    assert [c] + [d, e, f] == [c, d, e, f];
    JoinCons(b, [c, d, e, f], n);
    assert [b] + [c, d, e, f] == [b, c, d, e, f];
    JoinCons(a, [b, c, d, e, f], n);
    assert [a] + [b, c, d, e, f] == [a, b, c, d, e, f];
  }

  lemma {:induction false} JoinAppend(xs: seq<string>, ys: seq<string>, sep: string)
    requires xs != [] && ys != []
    ensures Join(xs + ys, sep) == Join(xs, sep) + sep + Join(ys, sep)
    decreases |xs|
  {
    if |xs| == 1 {
      JoinCons(xs[0], ys, sep);
      assert xs + ys == [xs[0]] + ys;
    } else {
      assert xs + ys == [xs[0]] + (xs[1..] + ys);
      JoinCons(xs[0], xs[1..] + ys, sep);
      JoinAppend(xs[1..], ys, sep);
      JoinCons(xs[0], xs[1..], sep);
      assert [xs[0]] + xs[1..] == xs;
    }
  }

  lemma {:induction false} UpperKeepsLines(s: string)
    requires '\n' !in s
    ensures '\n' !in Upper(s)
    decreases |s|
  {
    if s != [] {
      assert s[0] in s;
      assert forall c | c in s[1..] :: c in s;
      UpperKeepsLines(s[1..]);
    }
  }

  /** Reading the copied text back line by line gives the header, then one
      "[ ] task" line per task (a template without tasks ends on an empty
      line), when neither the title, the description nor a task spans lines. */
  lemma CopiedLines(t: Template)
    requires '\n' !in t.title && '\n' !in t.description
    requires forall k | 0 <= k < |t.tasks| :: '\n' !in t.tasks[k]
    ensures Split(CopyText(t), '\n')
         == Header(t) + (if t.tasks == [] then [""] else Map(t.tasks, TaskLine))
  {
    UpperKeepsLines(t.title);
    var lines := Map(t.tasks, TaskLine);
    var body := if t.tasks == [] then [""] else lines;
    forall k | 0 <= k < |lines|
      ensures '\n' !in lines[k]
    {
      assert lines[k] == "[ ] " + t.tasks[k];
    }
    assert Join(body, "\n") == TaskList(t.tasks) by {
      if t.tasks == [] {
        assert lines == [];
      }
    }
    CopyTextIsLines(t);
    JoinAppend(Header(t), body, "\n");
    JoinAppend(Header(t), [TaskList(t.tasks)], "\n");
    var all := Header(t) + body;
    assert Join(all, "\n") == CopyText(t);
    forall k | 0 <= k < |all|
      ensures '\n' !in all[k]
    {
      if k >= 5 {
        assert all[k] == body[k - 5];
      }
    }
    JoinSplit(all, '\n');
  }

  datatype ToastKind = Success | Failure

  datatype Toast = Toast(message: string, kind: ToastKind)

  /** The list's state; `deletes` records the calls to `onDelete`,
      `clipboard` the last text written. */
  class TemplatesScreen {
    var templates: seq<Template>
    var loading: bool
    var toasts: seq<Toast>
    var deletes: seq<string>
    var clipboard: Option<string>

    /** The screen mounts loading, with an empty list. */
    constructor ()
      ensures templates == [] && loading && toasts == [] && deletes == [] && clipboard.None?
    {
      templates := [];
      loading := true;
      toasts := [];
      deletes := [];
      clipboard := None;
    }

    /** `fetchTemplates`, with the server's answer given as `fetched` (`None`
        when the request fails): the list is replaced, or kept with an error
        toast; loading ends either way. */
    method Fetch(fetched: Option<seq<Template>>)
      modifies this
      ensures !loading && deletes == old(deletes) && clipboard == old(clipboard)
      ensures fetched.Some? ==> templates == fetched.value && toasts == old(toasts)
      ensures fetched.None? ==>
        templates == old(templates) && toasts == old(toasts) + [Toast("Erro ao carregar templates do servidor.", Failure)]
    {
      loading := true;
      if fetched.Some? {
        templates := fetched.value;
      } else {
        toasts := toasts + [Toast("Erro ao carregar templates do servidor.", Failure)];
      }
      loading := false;
    }

    /** `handleCopy`, with whether the clipboard accepted the text. */
    method Copy(t: Template, accepted: bool)
      modifies this
      ensures templates == old(templates) && loading == old(loading) && deletes == old(deletes)
      ensures accepted ==>
        clipboard == Some(CopyText(t))
        && toasts == old(toasts) + [Toast("Conteúdo copiado para a área de transferência!", Success)]
      ensures !accepted ==>
        clipboard == old(clipboard) && toasts == old(toasts) + [Toast("Erro ao copiar conteúdo.", Failure)]
    {
      if accepted {
        clipboard := Some(CopyText(t));
        toasts := toasts + [Toast("Conteúdo copiado para a área de transferência!", Success)];
      } else {
        toasts := toasts + [Toast("Erro ao copiar conteúdo.", Failure)];
      }
    }

    /** `handleDeleteLocal`: without a handler nothing happens; otherwise the
        template is deleted and the list fetched again (`refetched` is that
        answer). */
    method DeleteLocal(id: string, hasHandler: bool, refetched: Option<seq<Template>>)
      modifies this
      ensures !hasHandler ==>
        templates == old(templates) && loading == old(loading) && toasts == old(toasts)
        && deletes == old(deletes) && clipboard == old(clipboard)
      ensures hasHandler ==> deletes == old(deletes) + [id] && !loading && clipboard == old(clipboard)
      ensures hasHandler && refetched.Some? ==> templates == refetched.value && toasts == old(toasts)
      ensures hasHandler && refetched.None? ==>
        templates == old(templates) && toasts == old(toasts) + [Toast("Erro ao carregar templates do servidor.", Failure)]
    {
      if hasHandler {
        deletes := deletes + [id];
        Fetch(refetched);
      }
    }
  }
}
