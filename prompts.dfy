/**
 * The prompt texts sent to the LLM, the keyword check that can raise a
 * complaint's urgency, and the query text used for team search.
 */
module Prompts {
  import opened Wrappers
  import opened Text

  /** The system prompt of the analyst. */
  const SYSTEM_PROMPT_ANALYST: string :=
    "Voc\U{EA} \U{E9} um analista especializado em reclama\U{E7}\U{F5}es de e-commerce brasileiro.\n" +
    "Sua fun\U{E7}\U{E3}o \U{E9} classificar reclama\U{E7}\U{F5}es com precis\U{E3}o e objetividade.\n" +
    "\n" +
    "CATEGORIAS V\U{C1}LIDAS (use EXATAMENTE uma dessas):\n" +
    "1. Atraso na entrega\n" +
    "2. Produto n\U{E3}o entregue\n" +
    "3. Produto com defeito\n" +
    "4. Produto diferente do anunciado\n" +
    "5. Cobran\U{E7}a indevida\n" +
    "6. Reembolso n\U{E3}o processado\n" +
    "7. Atendimento ruim\n" +
    "8. Problema com vendedor (marketplace)\n" +
    "9. Cancelamento negado\n" +
    "10. Dificuldade de contato\n" +
    "\n" +
    "N\U{CD}VEIS DE SENTIMENTO:\n" +
    "- neutro: cliente objetivo, sem emo\U{E7}\U{E3}o aparente\n" +
    "- insatisfeito: cliente reclamando mas controlado\n" +
    "- muito_insatisfeito: cliente irritado, usa CAPS LOCK, m\U{FA}ltiplas exclama\U{E7}\U{F5}es, amea\U{E7}as\n" +
    "\n" +
    "N\U{CD}VEIS DE URG\U{CA}NCIA:\n" +
    "- baixa: problema menor, sem prazo definido\n" +
    "- media: cliente quer solu\U{E7}\U{E3}o mas sem urg\U{EA}ncia extrema\n" +
    "- alta: men\U{E7}\U{E3}o a prazos, eventos, necessidade imediata\n" +
    "- critica: amea\U{E7}a PROCON/justi\U{E7}a, fraude, risco \U{E0} sa\U{FA}de, valores altos (>R$5000)\n" +
    "\n" +
    "REGRAS IMPORTANTES:\n" +
    "1. Sempre responda em JSON v\U{E1}lido\n" +
    "2. O resumo deve ter no m\U{E1}ximo 2 frases\n" +
    "3. Identifique de 2 a 4 pontos-chave\n" +
    "4. Seja objetivo e imparcial na an\U{E1}lise"

  // The classification template, cut at its four placeholders.
  const PROMPT_HEAD := "Analise a seguinte reclama\U{E7}\U{E3}o e classifique-a.\n\n**T\U{ED}tulo:** "
  const BEFORE_DESCRIPTION := "\n\n**Descri\U{E7}\U{E3}o:**\n"
  const BEFORE_SOURCE := "\n\n**Fonte:** "
  const BEFORE_DATE := "\n**Data:** "
  const PROMPT_TAIL := "\n\nResponda EXATAMENTE neste formato JSON:\n{\n    \"category\": \"<categoria exata da lista>\",\n    \"sentiment\": \"<neutro|insatisfeito|muito_insatisfeito>\",\n    \"urgency\": \"<baixa|media|alta|critica>\",\n    \"summary\": \"<resumo objetivo em 1-2 frases>\",\n    \"key_issues\": [\"<ponto 1>\", \"<ponto 2>\", \"<ponto 3>\"]\n}"

  const NOT_INFORMED := "n\U{E3}o informado"

  /** A template with four placeholders: the fixed text before, between and after them. */
  datatype Template = Template(head: string, beforeDescription: string, beforeSource: string,
                               beforeDate: string, tail: string)

  const ANALYSIS_TEMPLATE := Template(PROMPT_HEAD, BEFORE_DESCRIPTION, BEFORE_SOURCE, BEFORE_DATE, PROMPT_TAIL)

  /** `str.format` on a template: the four values placed verbatim, in order. */
  function Fill(t: Template, title: string, description: string, source: string, createdAt: string): (r: string)
    ensures StartsWith(r, t.head + title)
    ensures EndsWith(r, createdAt + t.tail)
  {
    t.head + (title + (t.beforeDescription + (description + (t.beforeSource + (source
      + (t.beforeDate + (createdAt + t.tail)))))))
  }

  /** `get_analysis_prompt`: the classification template filled in. */
  function AnalysisPrompt(title: string, description: string, source: string := NOT_INFORMED,
                          createdAt: string := NOT_INFORMED): (r: string)
    ensures StartsWith(r, PROMPT_HEAD + title)
    ensures EndsWith(r, createdAt + PROMPT_TAIL)
  {
    Fill(ANALYSIS_TEMPLATE, title, description, source, createdAt)
  }

  /**
   * Text laid out as `h t b1 d b2 s b3 c tail` determines `t`, `d`, `s` and `c`
   * when `t`, `s` and `c` are single lines, `b1` starts a new line, `b2` is
   * two line breaks followed by one line, and `b3` is a line break followed
   * by one line.
   */
  lemma LayoutInjective(h: string, b1: string, b2: string, b3: string, tail: string,
                        t: string, d: string, s: string, c: string,
                        t': string, d': string, s': string, c': string)
    requires |b1| >= 1 && b1[0] == '\n'
    requires |b2| >= 2 && b2[0] == '\n' && b2[1] == '\n' && '\n' !in b2[2..]
    requires |b3| >= 1 && b3[0] == '\n' && '\n' !in b3[1..]
    requires '\n' !in t && '\n' !in s && '\n' !in c
    requires '\n' !in t' && '\n' !in s' && '\n' !in c'
    requires h + (t + (b1 + (d + (b2 + (s + (b3 + (c + tail)))))))
          == h + (t' + (b1 + (d' + (b2 + (s' + (b3 + (c' + tail)))))))
    ensures t == t' && d == d' && s == s' && c == c'
  {
    var r := d + (b2 + (s + (b3 + (c + tail))));
    var r' := d' + (b2 + (s' + (b3 + (c' + tail))));
    assert t + (b1 + r) == t' + (b1 + r') by {
      var x := h + (t + (b1 + r));
      assert t + (b1 + r) == x[|h|..];
    }
    Assoc([b1[0]], b1[1..], r);
    Assoc([b1[0]], b1[1..], r');
    assert b1 == [b1[0]] + b1[1..];
    SplitAtFirst('\n', t, b1[1..] + r, t', b1[1..] + r');
    assert r == r' by {
      assert r == (b1[1..] + r)[|b1| - 1..];
      assert r' == (b1[1..] + r')[|b1| - 1..];
    }
    var u := d + (b2 + s);
    var u' := d' + (b2 + s');
    var v := b3[1..] + c;
    var v' := b3[1..] + c';
    assert u + ([b3[0]] + v) == u' + ([b3[0]] + v') by {
      LayoutTail(d, b2, s, b3, c, tail);
      LayoutTail(d', b2, s', b3, c', tail);
      assert (u + ([b3[0]] + v)) + tail == (u' + ([b3[0]] + v')) + tail;
      var z := (u + ([b3[0]] + v)) + tail;
      assert u + ([b3[0]] + v) == z[..|z| - |tail|];
    }
    SplitAtLast('\n', u, v, u', v');
    assert c == v[|b3| - 1..] && c' == v'[|b3| - 1..];
    var w := d + [b2[0]];
    var w' := d' + [b2[0]];
    assert w + ([b2[1]] + (b2[2..] + s)) == w' + ([b2[1]] + (b2[2..] + s')) by {
      LayoutHead(d, b2, s);
      LayoutHead(d', b2, s');
    }
    SplitAtLast('\n', w, b2[2..] + s, w', b2[2..] + s');
    assert s == (b2[2..] + s)[|b2| - 2..];
    assert s' == (b2[2..] + s')[|b2| - 2..];
    assert d == w[..|d|] && d' == w'[..|d'|];
  }

  lemma Assoc(x: string, y: string, z: string)
    ensures (x + y) + z == x + (y + z)
  {
  }

  lemma LayoutTail(d: string, b2: string, s: string, b3: string, c: string, tail: string)
    requires |b3| >= 1
    ensures d + (b2 + (s + (b3 + (c + tail)))) == ((d + (b2 + s)) + ([b3[0]] + (b3[1..] + c))) + tail
  {
    assert b3 == [b3[0]] + b3[1..];
  }

  lemma LayoutHead(d: string, b2: string, s: string)
    requires |b2| >= 2
    ensures d + (b2 + s) == (d + [b2[0]]) + ([b2[1]] + (b2[2..] + s))
  {
    assert b2 == [b2[0]] + ([b2[1]] + b2[2..]);
  }

  /**
   * A filled template determines the values placed in it when the title,
   * the source and the date are single lines and the fixed text between
   * them has the classification template's line structure.
   */
  lemma FillInjective(tp: Template, t: string, d: string, s: string, c: string,
                      t': string, d': string, s': string, c': string)
    requires |tp.beforeDescription| >= 1 && tp.beforeDescription[0] == '\n'
    requires |tp.beforeSource| >= 2 && tp.beforeSource[0] == '\n' && tp.beforeSource[1] == '\n'
    requires '\n' !in tp.beforeSource[2..]
    requires |tp.beforeDate| >= 1 && tp.beforeDate[0] == '\n' && '\n' !in tp.beforeDate[1..]
    requires '\n' !in t && '\n' !in s && '\n' !in c
    requires '\n' !in t' && '\n' !in s' && '\n' !in c'
    requires Fill(tp, t, d, s, c) == Fill(tp, t', d', s', c')
    ensures t == t' && d == d' && s == s' && c == c'
  {
    LayoutInjective(tp.head, tp.beforeDescription, tp.beforeSource, tp.beforeDate, tp.tail,
      t, d, s, c, t', d', s', c');
  }

  /**
   * The prompt determines the values it was built from, provided the
   * title, the source and the date are single lines (the description may
   * span several).
   */
  lemma AnalysisPromptInjective(t: string, d: string, s: string, c: string,
                                t': string, d': string, s': string, c': string)
    requires '\n' !in t && '\n' !in s && '\n' !in c
    requires '\n' !in t' && '\n' !in s' && '\n' !in c'
    requires AnalysisPrompt(t, d, s, c) == AnalysisPrompt(t', d', s', c')
    ensures t == t' && d == d' && s == s' && c == c'
  {
    TemplateLines();
    FillInjective(ANALYSIS_TEMPLATE, t, d, s, c, t', d', s', c');
  }

  /** The line structure of the classification template's fixed text. */
  lemma TemplateLines()
    ensures |BEFORE_DESCRIPTION| >= 1 && BEFORE_DESCRIPTION[0] == '\n'
    ensures |BEFORE_SOURCE| >= 2 && BEFORE_SOURCE[0] == '\n' && BEFORE_SOURCE[1] == '\n'
    ensures '\n' !in BEFORE_SOURCE[2..]
    ensures |BEFORE_DATE| >= 1 && BEFORE_DATE[0] == '\n' && '\n' !in BEFORE_DATE[1..]
  {
    assert '\n' !in BEFORE_SOURCE[2..] && '\n' !in BEFORE_DATE[1..];
  }

  // -----------------------------------------------------------------------
  // Keyword urgency.

  const CRITICA_KEYWORDS: seq<string> := [
    "procon", "processo", "justi\U{E7}a", "advogado", "juizado",
    "fraude", "golpe", "roubo", "clonado", "clonaram",
    "sa\U{FA}de", "doen\U{E7}a", "al\U{E9}rgico", "vencido", "contaminado",
    "urgente", "urg\U{EA}ncia", "imediato", "hoje"]

  const ALTA_KEYWORDS: seq<string> := [
    "prazo", "evento", "anivers\U{E1}rio", "casamento", "viagem",
    "presente", "amanh\U{E3}", "semana", "dias",
    "precisando", "necessito", "dependo"]

  /** Some keyword of the list, taken in order, occurs in `text`. */
  function AnyOccurs(keywords: seq<string>, text: string): (r: bool)
    ensures r <==> exists k :: k in keywords && Contains(text, k)
  {
    if keywords == [] then false
    else if Contains(text, keywords[0]) then true
    else AnyOccurs(keywords[1..], text)
  }

  /** `check_urgency_keywords`: "critica", "alta" or nothing, from the lowercased text. */
  function CheckUrgencyKeywords(text: string): (r: Option<string>)
    ensures r == Some("critica") <==> exists k :: k in CRITICA_KEYWORDS && Contains(Lower(text), k)
    ensures r == Some("alta") <==>
      (forall k :: k in CRITICA_KEYWORDS ==> !Contains(Lower(text), k))
      && exists k :: k in ALTA_KEYWORDS && Contains(Lower(text), k)
    ensures r == None <==>
      forall k :: k in CRITICA_KEYWORDS + ALTA_KEYWORDS ==> !Contains(Lower(text), k)
    ensures r == None || r == Some("critica") || r == Some("alta")
  {
    var lowered := Lower(text);
    if AnyOccurs(CRITICA_KEYWORDS, lowered) then Some("critica")
    else if AnyOccurs(ALTA_KEYWORDS, lowered) then Some("alta")
    else None
  }

  /** The check does not depend on letter case: lowering the text first changes nothing. */
  lemma CheckUrgencyIgnoresCase(text: string)
    ensures CheckUrgencyKeywords(Lower(text)) == CheckUrgencyKeywords(text)
  {
    LowerIdempotent(text);
  }

  /** `get_routing_context`: the search query built from an analysis. */
  function RoutingContext(category: string, urgency: string, summary: string): (r: string)
    ensures StartsWith(r, "Categoria: " + category + ". Urg\U{EA}ncia: " + urgency + ". ")
    ensures EndsWith(r, summary)
  {
    "Categoria: " + category + ". Urg\U{EA}ncia: " + urgency + ". " + summary
  }
}
