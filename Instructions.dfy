/**
 * Loading the agent's system instructions: the content of the instructions
 * file, stripped, or a fixed default when the file cannot be read or is blank.
 */
module Instructions {
  import opened Wrappers
  import opened Text

  /**
   * The content-or-default rule shared by every loader in the client.
   * `file` is `None` when opening, reading or decoding the file raises.
   */
  function ContentOrDefault(file: Option<string>, fallback: string): (r: string)
    ensures file.None? || AllSpace(file.value) ==> r == fallback
    ensures file.Some? && !AllSpace(file.value) ==>
              r == Strip(file.value) && r != [] && !IsSpace(r[0]) && !IsSpace(r[|r| - 1])
  {
    if file.Some? && Strip(file.value) != "" then
      StripBorders(file.value);
      Strip(file.value)
    else
      assert file.Some? ==> AllSpace(file.value) by {
        if file.Some? { StripEmptyIffBlank(file.value); }
      }
      fallback
  }

  /** The instruction block used by both desktop clients when the file is unusable. */
  const DefaultAgentInstructions: string :=
    "\n"
    + "            VOCÊ É UM AGENTE DE SUPORTE TÉCNICO COM ACESSO A UMA BASE DE CONHECIMENTO\n"
    + "\n"
    + "            SUAS FUNÇÕES:\n"
    + "            1. Usar a base de conhecimento (Vector Store) para buscar informações\n"
    + "            2. Classificar problemas: Rede, Hardware, Software, Segurança\n"
    + "            3. Fornecer soluções baseadas em documentação\n"
    + "            4. Ser preciso e profissional\n"
    + "\n"
    + "            IMPORTANTE:\n"
    + "            - Você tem acesso a documentos de suporte técnico via Vector Store\n"
    + "            - SEMPRE busque na base de conhecimento antes de responder\n"
    + "            - Cite procedimentos específicos quando disponíveis\n"
    + "            - Forneça contatos corretos da documentação\n"
    + "\n"
    + "            BASE DE CONHECIMENTO DISPONÍVEL:\n"
    + "            - Procedimentos de suporte técnico\n"
    + "            - Contatos e informações de suporte\n"
    + "            - Políticas da empresa\n"
    + "\n"
    + "            Quando o usuário fizer uma pergunta:\n"
    + "            1. Busque informações relevantes no Vector Store\n"
    + "            2. Forneça respostas baseadas na documentação\n"
    + "            3. Seja específico e cite fontes quando possível\n"
    + "            "

  /**
   * `read_instructions` of both desktop clients (the file is
   * ./instructions/instrucoes.txt). It never raises and never yields an
   * empty text; only the file's content is stripped, the default block is
   * used with its surrounding white space.
   */
  function ReadInstructions(file: Option<string>): (r: string)
    ensures r != []
    ensures file.None? || AllSpace(file.value) ==> r == DefaultAgentInstructions
    ensures file.Some? && !AllSpace(file.value) ==> r == Strip(file.value) && !IsSpace(r[0])
  {
    DefaultIsNotEmpty();
    ContentOrDefault(file, DefaultAgentInstructions)
  }

  /** The default block is not empty. */
  lemma DefaultIsNotEmpty()
    ensures |DefaultAgentInstructions| > 0
  {
  }
}
