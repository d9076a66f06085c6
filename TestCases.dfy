// The demonstration queries of the classification script, each worked out.
module TestCases {
  import opened Text
  import opened Classification

  lemma WifiQueryLowered()
    ensures Lower("Não consigo conectar na wifi") == "não consigo conectar na wifi"
  {
    assert Lower("Não ") == "não ";
    assert Lower("consigo ") == "consigo ";
    assert Lower("conectar ") == "conectar ";
    assert Lower("na wifi") == "na wifi";
    LowerConcat("Não ", "consigo ");
    LowerConcat("Não consigo ", "conectar ");
    LowerConcat("Não consigo conectar ", "na wifi");
  }

  lemma WifiQueryHitsRede()
    ensures Hits(Rede, "não consigo conectar na wifi")
  {
    var q := "não consigo conectar na wifi";
    assert OccursAt(q, "wifi", 24);
    ContainsIffOccurs(q, "wifi");
    assert Keywords(Rede)[0] == "wifi";
  }

  /** The first test query is classified REDE. */
  lemma WifiQueryIsRede()
    ensures ClassifyQuery("Não consigo conectar na wifi") == Rede
    ensures Label(ClassifyQuery("Não consigo conectar na wifi")) == "REDE"
  {
    WifiQueryLowered();
    WifiQueryHitsRede();
  }

  lemma PowerQueryLowered()
    ensures Lower("Meu computador não liga") == "meu computador não liga"
  {
    assert Lower("Meu ") == "meu ";
    assert Lower("computador ") == "computador ";
    assert Lower("não liga") == "não liga";
    LowerConcat("Meu ", "computador ");
    LowerConcat("Meu computador ", "não liga");
  }

  lemma PowerQueryWords()
    ensures Unwords(["meu", "computador", "não", "liga"]) == "meu computador não liga"
  {
  }

  lemma PowerWordsMissRede()
    ensures MissesFrom(Keywords(Rede), "meu", 0) && MissesFrom(Keywords(Rede), "computador", 0)
    ensures MissesFrom(Keywords(Rede), "não", 0) && MissesFrom(Keywords(Rede), "liga", 0)
  {
  }

  lemma PowerQueryMissesRede()
    ensures !Hits(Rede, "meu computador não liga")
  {
    PowerQueryWords();
    PowerWordsMissRede();
    WordsMissCategory(Rede, ["meu", "computador", "não", "liga"]);
  }

  lemma PowerQueryHitsHardware()
    ensures Hits(Hardware, "meu computador não liga")
  {
    var q := "meu computador não liga";
    assert OccursAt(q, "liga", 19);
    ContainsIffOccurs(q, "liga");
    assert Keywords(Hardware)[1] == "liga";
  }

  /** The second test query misses every REDE keyword and is classified HARDWARE. */
  lemma PowerQueryIsHardware()
    ensures ClassifyQuery("Meu computador não liga") == Hardware
    ensures Label(ClassifyQuery("Meu computador não liga")) == "HARDWARE"
  {
    PowerQueryLowered();
    PowerQueryMissesRede();
    PowerQueryHitsHardware();
  }

  lemma PasswordChunksLowered()
    ensures Lower("Esqueci ") == "esqueci "
    ensures Lower("minha ") == "minha "
    ensures Lower("senha ") == "senha "
    ensures Lower("de email") == "de email"
  {
  }

  lemma PasswordQueryLowered()
    ensures Lower("Esqueci minha senha de email") == "esqueci minha senha de email"
  {
    PasswordChunksLowered();
    LowerConcat("Esqueci ", "minha ");
    LowerConcat("Esqueci minha ", "senha ");
    LowerConcat("Esqueci minha senha ", "de email");
  }

  lemma PasswordQueryWords()
    ensures Unwords(["esqueci", "minha", "senha", "de", "email"]) == "esqueci minha senha de email"
  {
  }

  lemma PasswordWordsMissRede()
    ensures MissesFrom(Keywords(Rede), "esqueci", 0) && MissesFrom(Keywords(Rede), "minha", 0)
    ensures MissesFrom(Keywords(Rede), "senha", 0) && MissesFrom(Keywords(Rede), "de", 0)
    ensures MissesFrom(Keywords(Rede), "email", 0)
  {
  }

  lemma PasswordQueryMissesRede()
    ensures !Hits(Rede, "esqueci minha senha de email")
  {
    PasswordQueryWords();
    PasswordWordsMissRede();
    WordsMissCategory(Rede, ["esqueci", "minha", "senha", "de", "email"]);
  }

  lemma PasswordWordsMissHardware()
    ensures MissesFrom(Keywords(Hardware), "esqueci", 0) && MissesFrom(Keywords(Hardware), "minha", 0)
    ensures MissesFrom(Keywords(Hardware), "senha", 0) && MissesFrom(Keywords(Hardware), "de", 0)
    ensures MissesFrom(Keywords(Hardware), "email", 0)
  {
  }

  lemma PasswordQueryMissesHardware()
    ensures !Hits(Hardware, "esqueci minha senha de email")
  {
    PasswordQueryWords();
    PasswordWordsMissHardware();
    WordsMissCategory(Hardware, ["esqueci", "minha", "senha", "de", "email"]);
  }

  lemma PasswordQueryHitsSeguranca()
    ensures Hits(Seguranca, "esqueci minha senha de email")
  {
    var q := "esqueci minha senha de email";
    assert OccursAt(q, "senha", 14);
    ContainsIffOccurs(q, "senha");
    assert Keywords(Seguranca)[0] == "senha";
  }

  /** The third test query misses the network and hardware lists and is classified SEGURANÇA. */
  lemma PasswordQueryIsSeguranca()
    ensures ClassifyQuery("Esqueci minha senha de email") == Seguranca
    ensures Label(ClassifyQuery("Esqueci minha senha de email")) == "SEGURANÇA"
  {
    PasswordQueryLowered();
    PasswordQueryMissesRede();
    PasswordQueryMissesHardware();
    PasswordQueryHitsSeguranca();
  }

  lemma WordChunksLowered()
    ensures Lower("O ") == "o "
    ensures Lower("software ") == "software "
    ensures Lower("Word ") == "word "
    ensures Lower("não está abrindo") == "não está abrindo"
  {
  }

  lemma WordQueryLowered()
    ensures Lower("O software Word não está abrindo") == "o software word não está abrindo"
  {
    WordChunksLowered();
    LowerConcat("O ", "software ");
    LowerConcat("O software ", "Word ");
    LowerConcat("O software Word ", "não está abrindo");
  }

  lemma WordQueryFirstHalf()
    ensures Unwords(["o", "software", "word"]) == "o software word"
  {
  }

  lemma WordQuerySecondHalf()
    ensures Unwords(["não", "está", "abrindo"]) == "não está abrindo"
  {
  }

  lemma WordQueryWords()
    ensures Unwords(["o", "software", "word", "não", "está", "abrindo"]) == "o software word não está abrindo"
  {
    WordQueryFirstHalf();
    WordQuerySecondHalf();
    assert ["o", "software", "word", "não", "está", "abrindo"] == ["o", "software", "word"] + ["não", "está", "abrindo"];
    UnwordsAppend(["o", "software", "word"], ["não", "está", "abrindo"]);
  }

  lemma WordWordsMissRede()
    ensures MissesFrom(Keywords(Rede), "o", 0) && MissesFrom(Keywords(Rede), "software", 0)
    ensures MissesFrom(Keywords(Rede), "word", 0) && MissesFrom(Keywords(Rede), "não", 0)
    ensures MissesFrom(Keywords(Rede), "está", 0) && MissesFrom(Keywords(Rede), "abrindo", 0)
  {
  }

  lemma WordQueryMissesRede()
    ensures !Hits(Rede, "o software word não está abrindo")
  {
    WordQueryWords();
    WordWordsMissRede();
    WordsMissCategory(Rede, ["o", "software", "word", "não", "está", "abrindo"]);
  }

  lemma WordWordsMissHardware()
    ensures MissesFrom(Keywords(Hardware), "o", 0) && MissesFrom(Keywords(Hardware), "software", 0)
    ensures MissesFrom(Keywords(Hardware), "word", 0) && MissesFrom(Keywords(Hardware), "não", 0)
    ensures MissesFrom(Keywords(Hardware), "está", 0) && MissesFrom(Keywords(Hardware), "abrindo", 0)
  {
  }

  lemma WordQueryMissesHardware()
    ensures !Hits(Hardware, "o software word não está abrindo")
  {
    WordQueryWords();
    WordWordsMissHardware();
    WordsMissCategory(Hardware, ["o", "software", "word", "não", "está", "abrindo"]);
  }

  lemma WordWordsMissSeguranca()
    ensures MissesFrom(Keywords(Seguranca), "o", 0) && MissesFrom(Keywords(Seguranca), "software", 0)
    ensures MissesFrom(Keywords(Seguranca), "word", 0) && MissesFrom(Keywords(Seguranca), "não", 0)
    ensures MissesFrom(Keywords(Seguranca), "está", 0) && MissesFrom(Keywords(Seguranca), "abrindo", 0)
  {
  }

  lemma WordQueryMissesSeguranca()
    ensures !Hits(Seguranca, "o software word não está abrindo")
  {
    WordQueryWords();
    WordWordsMissSeguranca();
    WordsMissCategory(Seguranca, ["o", "software", "word", "não", "está", "abrindo"]);
  }

  lemma WordQueryHitsSoftware()
    ensures Hits(Software, "o software word não está abrindo")
  {
    var q := "o software word não está abrindo";
    assert OccursAt(q, "word", 11);
    ContainsIffOccurs(q, "word");
    assert Keywords(Software)[1] == "word";
  }

  /** The fourth test query misses the first three lists and is classified SOFTWARE. */
  lemma WordQueryIsSoftware()
    ensures ClassifyQuery("O software Word não está abrindo") == Software
    ensures Label(ClassifyQuery("O software Word não está abrindo")) == "SOFTWARE"
  {
    WordQueryLowered();
    WordQueryMissesRede();
    WordQueryMissesHardware();
    WordQueryMissesSeguranca();
    WordQueryHitsSoftware();
  }

  lemma VpnChunksLowered()
    ensures Lower("Estou ") == "estou "
    ensures Lower("com problema ") == "com problema "
    ensures Lower("para acessar ") == "para acessar "
    ensures Lower("a VPN") == "a vpn"
  {
  }

  lemma VpnQueryLowered()
    ensures Lower("Estou com problema para acessar a VPN") == "estou com problema para acessar a vpn"
  {
    VpnChunksLowered();
    LowerConcat("Estou ", "com problema ");
    LowerConcat("Estou com problema ", "para acessar ");
    LowerConcat("Estou com problema para acessar ", "a VPN");
  }

  lemma VpnQueryFirstHalf()
    ensures Unwords(["estou", "com", "problema", "para"]) == "estou com problema para"
  {
  }

  lemma VpnQuerySecondHalf()
    ensures Unwords(["acessar", "a", "vpn"]) == "acessar a vpn"
  {
  }

  lemma VpnQueryWords()
    ensures Unwords(["estou", "com", "problema", "para", "acessar", "a", "vpn"]) == "estou com problema para acessar a vpn"
  {
    VpnQueryFirstHalf();
    VpnQuerySecondHalf();
    assert ["estou", "com", "problema", "para", "acessar", "a", "vpn"] == ["estou", "com", "problema", "para"] + ["acessar", "a", "vpn"];
    UnwordsAppend(["estou", "com", "problema", "para"], ["acessar", "a", "vpn"]);
  }

  lemma VpnWordsMissRede()
    ensures MissesFrom(Keywords(Rede), "estou", 0) && MissesFrom(Keywords(Rede), "com", 0)
    ensures MissesFrom(Keywords(Rede), "problema", 0) && MissesFrom(Keywords(Rede), "para", 0)
    ensures MissesFrom(Keywords(Rede), "acessar", 0) && MissesFrom(Keywords(Rede), "a", 0)
    ensures MissesFrom(Keywords(Rede), "vpn", 0)
  {
  }

  lemma VpnQueryMissesRede()
    ensures !Hits(Rede, "estou com problema para acessar a vpn")
  {
    VpnQueryWords();
    VpnWordsMissRede();
    WordsMissCategory(Rede, ["estou", "com", "problema", "para", "acessar", "a", "vpn"]);
  }

  lemma VpnWordsMissHardware()
    ensures MissesFrom(Keywords(Hardware), "estou", 0) && MissesFrom(Keywords(Hardware), "com", 0)
    ensures MissesFrom(Keywords(Hardware), "problema", 0) && MissesFrom(Keywords(Hardware), "para", 0)
    ensures MissesFrom(Keywords(Hardware), "acessar", 0) && MissesFrom(Keywords(Hardware), "a", 0)
    ensures MissesFrom(Keywords(Hardware), "vpn", 0)
  {
  }

  lemma VpnQueryMissesHardware()
    ensures !Hits(Hardware, "estou com problema para acessar a vpn")
  {
    VpnQueryWords();
    VpnWordsMissHardware();
    WordsMissCategory(Hardware, ["estou", "com", "problema", "para", "acessar", "a", "vpn"]);
  }

  lemma VpnWordsMissSeguranca()
    ensures MissesFrom(Keywords(Seguranca), "estou", 0) && MissesFrom(Keywords(Seguranca), "com", 0)
    ensures MissesFrom(Keywords(Seguranca), "problema", 0) && MissesFrom(Keywords(Seguranca), "para", 0)
    ensures MissesFrom(Keywords(Seguranca), "acessar", 0) && MissesFrom(Keywords(Seguranca), "a", 0)
    ensures MissesFrom(Keywords(Seguranca), "vpn", 0)
  {
  }

  lemma VpnQueryMissesSeguranca()
    ensures !Hits(Seguranca, "estou com problema para acessar a vpn")
  {
    VpnQueryWords();
    VpnWordsMissSeguranca();
    WordsMissCategory(Seguranca, ["estou", "com", "problema", "para", "acessar", "a", "vpn"]);
  }

  lemma VpnWordsMissSoftware()
    ensures MissesFrom(Keywords(Software), "estou", 0) && MissesFrom(Keywords(Software), "com", 0)
    ensures MissesFrom(Keywords(Software), "problema", 0) && MissesFrom(Keywords(Software), "para", 0)
    ensures MissesFrom(Keywords(Software), "acessar", 0) && MissesFrom(Keywords(Software), "a", 0)
    ensures MissesFrom(Keywords(Software), "vpn", 0)
  {
  }

  lemma VpnQueryMissesSoftware()
    ensures !Hits(Software, "estou com problema para acessar a vpn")
  {
    VpnQueryWords();
    VpnWordsMissSoftware();
    WordsMissCategory(Software, ["estou", "com", "problema", "para", "acessar", "a", "vpn"]);
  }

  /** The fifth test query contains no keyword: "acessar" is not "acesso" and "problema" is not "programa", so it is OUTROS. */
  lemma VpnQueryIsOutros()
    ensures ClassifyQuery("Estou com problema para acessar a VPN") == Outros
    ensures Label(ClassifyQuery("Estou com problema para acessar a VPN")) == "OUTROS"
  {
    VpnQueryLowered();
    VpnQueryMissesRede();
    VpnQueryMissesHardware();
    VpnQueryMissesSeguranca();
    VpnQueryMissesSoftware();
  }

  lemma MonitorChunksLowered()
    ensures Lower("Meu ") == "meu "
    ensures Lower("monitor ") == "monitor "
    ensures Lower("está ") == "está "
    ensures Lower("piscando") == "piscando"
  {
  }

  lemma MonitorQueryLowered()
    ensures Lower("Meu monitor está piscando") == "meu monitor está piscando"
  {
    MonitorChunksLowered();
    LowerConcat("Meu ", "monitor ");
    LowerConcat("Meu monitor ", "está ");
    LowerConcat("Meu monitor está ", "piscando");
  }

  lemma MonitorQueryWords()
    ensures Unwords(["meu", "monitor", "está", "piscando"]) == "meu monitor está piscando"
  {
  }

  lemma MonitorWordsMissRede()
    ensures MissesFrom(Keywords(Rede), "meu", 0) && MissesFrom(Keywords(Rede), "monitor", 0)
    ensures MissesFrom(Keywords(Rede), "está", 0) && MissesFrom(Keywords(Rede), "piscando", 0)
  {
  }

  lemma MonitorQueryMissesRede()
    ensures !Hits(Rede, "meu monitor está piscando")
  {
    MonitorQueryWords();
    MonitorWordsMissRede();
    WordsMissCategory(Rede, ["meu", "monitor", "está", "piscando"]);
  }

  lemma MonitorWordsMissHardware()
    ensures MissesFrom(Keywords(Hardware), "meu", 0) && MissesFrom(Keywords(Hardware), "monitor", 0)
    ensures MissesFrom(Keywords(Hardware), "está", 0) && MissesFrom(Keywords(Hardware), "piscando", 0)
  {
  }

  lemma MonitorQueryMissesHardware()
    ensures !Hits(Hardware, "meu monitor está piscando")
  {
    MonitorQueryWords();
    MonitorWordsMissHardware();
    WordsMissCategory(Hardware, ["meu", "monitor", "está", "piscando"]);
  }

  lemma MonitorWordsMissSeguranca()
    ensures MissesFrom(Keywords(Seguranca), "meu", 0) && MissesFrom(Keywords(Seguranca), "monitor", 0)
    ensures MissesFrom(Keywords(Seguranca), "está", 0) && MissesFrom(Keywords(Seguranca), "piscando", 0)
  {
  }

  lemma MonitorQueryMissesSeguranca()
    ensures !Hits(Seguranca, "meu monitor está piscando")
  {
    MonitorQueryWords();
    MonitorWordsMissSeguranca();
    WordsMissCategory(Seguranca, ["meu", "monitor", "está", "piscando"]);
  }

  lemma MonitorWordsMissSoftware()
    ensures MissesFrom(Keywords(Software), "meu", 0) && MissesFrom(Keywords(Software), "monitor", 0)
    ensures MissesFrom(Keywords(Software), "está", 0) && MissesFrom(Keywords(Software), "piscando", 0)
  {
  }

  lemma MonitorQueryMissesSoftware()
    ensures !Hits(Software, "meu monitor está piscando")
  {
    MonitorQueryWords();
    MonitorWordsMissSoftware();
    WordsMissCategory(Software, ["meu", "monitor", "está", "piscando"]);
  }

  /** The sixth test query contains no keyword, so it is OUTROS. */
  lemma MonitorQueryIsOutros()
    ensures ClassifyQuery("Meu monitor está piscando") == Outros
    ensures Label(ClassifyQuery("Meu monitor está piscando")) == "OUTROS"
  {
    MonitorQueryLowered();
    MonitorQueryMissesRede();
    MonitorQueryMissesHardware();
    MonitorQueryMissesSeguranca();
    MonitorQueryMissesSoftware();
  }
}
