/**
 * The system instruction of the chat tutor (`_shared/systemPrompt.ts`): six sections joined by a
 * blank line: who the tutor is, the ebook's core ideas, the active mode, that mode's behaviour,
 * the answer language and the clinical-safety rule.
 */
module SystemPrompt {
  import opened Text
  import opened Types

  /** How the tutor behaves in each mode. */
  function ModeInstruction(mode: ChatMode): string {
    match mode
    case Mentor =>
      "Actúa como un profesor amable y paciente. Usa explicaciones sencillas, analogías claras y pasos prácticos. Evita tecnicismos sin contexto."
    case Researcher =>
      "Actúa como investigador científico. Sé preciso, cita mecanismo fisiológico y usa evidencia cuando esté disponible."
    case Coach =>
      "Actúa como entrenador de alto rendimiento. Sé directo, accionable y orientado a conducta y adherencia semanal."
    case Visionary =>
      "Actúa como motor visual y creativo. Describe conceptos con lenguaje visual y prepara prompts claros para visualización biomédica."
  }

  const PREAMBLE: string :=
    "Eres LOGOS, tutor conversacional del bonus premium de una app de suscripción por seasons de 12 semanas."

  /** The template literal, with its leading and trailing line feed. */
  const EBOOK_CONTEXT: string :=
    "\nContexto base del ebook \"El Músculo: Tu Órgano de Longevidad\":\n"
    + "- El músculo es un órgano endocrino con impacto sistémico.\n"
    + "- Las contracciones musculares liberan miocinas que regulan metabolismo, inflamación y salud cerebral.\n"
    + "- El sedentarismo reduce estas señales y aumenta riesgo de deterioro metabólico.\n"
    + "- La salud se debe plantear como optimización muscular y no solo pérdida de grasa.\n"
    + "- El objetivo práctico es sostener hábitos durante una season de 12 semanas.\n"

  const LANGUAGE_RULE: string := "Responde en español, con estructura breve y accionable."
  const SAFETY_RULE: string := "No inventes datos clínicos ni promesas médicas absolutas."
  const SEPARATOR: string := "\n\n"

  /** `Modo activo: ${mode.toUpperCase()}.` */
  function ModeLine(mode: ChatMode): string {
    "Modo activo: " + UpperAscii(ModeName(mode)) + "."
  }

  /** The wording of the sections other than the mode line; the lemmas below hold whatever it is. */
  datatype PromptTexts = PromptTexts(preamble: string, ebookContext: string, instructions: ChatMode -> string,
                                     languageRule: string, safetyRule: string)

  const TEXTS: PromptTexts := PromptTexts(PREAMBLE, EBOOK_CONTEXT, ModeInstruction, LANGUAGE_RULE, SAFETY_RULE)

  function Sections(t: PromptTexts, mode: ChatMode): (r: seq<string>)
    ensures |r| == 6
  {
    [t.preamble, t.ebookContext, ModeLine(mode), t.instructions(mode), t.languageRule, t.safetyRule]
  }

  /** The six sections joined by a blank line. */
  function Instruction(t: PromptTexts, mode: ChatMode): string {
    Join(Sections(t, mode), SEPARATOR)
  }

  /** `buildSystemInstruction`. */
  function BuildSystemInstruction(mode: ChatMode): string {
    Instruction(TEXTS, mode)
  }

  /** Six parts joined by a separator: each part followed by the separator and the rest. */
  lemma {:induction false} JoinSix(a: string, b: string, c: string, d: string, e: string, f: string, sep: string)
    ensures Join([a, b, c, d, e, f], sep) == a + sep + (b + sep + (c + sep + (d + sep + (e + sep + f))))
  {
    assert [e, f][1..] == [f];
    assert Join([e, f], sep) == e + sep + f;
    assert [d, e, f][1..] == [e, f];
    assert Join([d, e, f], sep) == d + sep + (e + sep + f);
    assert [c, d, e, f][1..] == [d, e, f];
    assert Join([c, d, e, f], sep) == c + sep + (d + sep + (e + sep + f));
    assert [b, c, d, e, f][1..] == [c, d, e, f];
    assert Join([b, c, d, e, f], sep) == b + sep + (c + sep + (d + sep + (e + sep + f)));
    assert [a, b, c, d, e, f][1..] == [b, c, d, e, f];
  }

  /** What follows the mode line: the mode's behaviour, the language rule and the safety rule. */
  function AfterModeLine(t: PromptTexts, mode: ChatMode): string {
    t.instructions(mode) + SEPARATOR + (t.languageRule + SEPARATOR + t.safetyRule)
  }

  /** The sections appear in order, each once, separated by a blank line. */
  lemma InstructionLayout(t: PromptTexts, mode: ChatMode)
    ensures Instruction(t, mode)
            == t.preamble + SEPARATOR + (t.ebookContext + SEPARATOR + (ModeLine(mode) + SEPARATOR + AfterModeLine(t, mode)))
  {
    JoinSix(t.preamble, t.ebookContext, ModeLine(mode), t.instructions(mode), t.languageRule, t.safetyRule, SEPARATOR);
  }

  /** The mode line names the mode in capitals. */
  lemma ModeLines()
    ensures ModeLine(Mentor) == "Modo activo: MENTOR."
    ensures ModeLine(Researcher) == "Modo activo: RESEARCHER."
    ensures ModeLine(Coach) == "Modo activo: COACH."
    ensures ModeLine(Visionary) == "Modo activo: VISIONARY."
  {
  }

  /** The first letter of the capitalised mode name, which tells the four modes apart. */
  function ModeInitial(mode: ChatMode): char {
    match mode
    case Mentor => 'M'
    case Researcher => 'R'
    case Coach => 'C'
    case Visionary => 'V'
  }

  /** The thirteenth character of the mode line is the mode's capitalised initial. */
  lemma ModeLineInitial(mode: ChatMode)
    ensures |ModeLine(mode)| > 13 && ModeLine(mode)[13] == ModeInitial(mode)
  {
    var name := UpperAscii(ModeName(mode));
    assert ModeLine(mode) == "Modo activo: " + name + ".";
    assert ("Modo activo: " + name + ".")[13] == name[0];
  }

  /** A suffix of `y` is a suffix of `x + y`. */
  lemma SuffixOfConcat(x: string, y: string, f: string)
    requires |f| <= |y| && y[|y| - |f|..] == f
    ensures (x + y)[|x + y| - |f|..] == f
  {
    assert (x + y)[|x + y| - |f|..] == y[|y| - |f|..];
  }

  /**
   * Six sections joined by a blank line begin with the first and a blank line, end with the last,
   * and hold the third one right after the first two and their separators.
   */
  lemma {:induction false} JoinedSixAnchors(a: string, b: string, c: string, d: string, e: string, f: string, k: nat)
    requires k < |c|
    ensures var r := Join([a, b, c, d, e, f], SEPARATOR);
            && a + SEPARATOR <= r
            && |r| >= |f| && r[|r| - |f|..] == f
            && |a| + |SEPARATOR| + |b| + |SEPARATOR| + k < |r| && r[|a| + |SEPARATOR| + |b| + |SEPARATOR| + k] == c[k]
  {
    var sep := SEPARATOR;
    JoinSix(a, b, c, d, e, f, sep);
    var t4 := e + sep + f;
    var t3 := d + sep + t4;
    var t2 := c + sep + t3;
    var t1 := b + sep + t2;
    SuffixOfConcat(e + sep, f, f);
    SuffixOfConcat(d + sep, t4, f);
    SuffixOfConcat(c + sep, t3, f);
    SuffixOfConcat(b + sep, t2, f);
    SuffixOfConcat(a + sep, t1, f);
    assert t1[|b| + |sep| + k] == t2[k];
  }

  /** Where the mode line starts: after the preamble, the ebook context and two separators. */
  function ModeLineAt(t: PromptTexts): nat {
    |t.preamble| + |SEPARATOR| + |t.ebookContext| + |SEPARATOR|
  }

  /**
   * The instruction begins with the preamble and a blank line, ends with the safety rule, and
   * carries the mode's capitalised initial at a position that does not depend on the mode.
   */
  lemma InstructionAnchors(t: PromptTexts, mode: ChatMode)
    ensures var r := Instruction(t, mode);
            && t.preamble + SEPARATOR <= r
            && |r| >= |t.safetyRule| && r[|r| - |t.safetyRule|..] == t.safetyRule
            && |r| > ModeLineAt(t) + 13 && r[ModeLineAt(t) + 13] == ModeInitial(mode)
  {
    ModeLineInitial(mode);
    JoinedSixAnchors(t.preamble, t.ebookContext, ModeLine(mode), t.instructions(mode), t.languageRule, t.safetyRule, 13);
  }

  /** Different modes give different system instructions, whatever the fixed sections say. */
  lemma DistinctModesDistinctInstructions(t: PromptTexts, m1: ChatMode, m2: ChatMode)
    requires m1 != m2
    ensures Instruction(t, m1) != Instruction(t, m2)
  {
    InstructionAnchors(t, m1);
    InstructionAnchors(t, m2);
  }
}
