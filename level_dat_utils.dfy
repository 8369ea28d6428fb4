/** The two literal tables of fast_world_creator/utils/level_dat_utils.py. */
module LevelDatUtils {
  import opened Wrappers
  import opened Json

  /** `get_template_dict()`: the baked-in level data, in the source's key order. */
  function Template(): Fields {
    [
      ("allowCommands", JInt(1)),
      ("BorderCenterX", JInt(0)),
      ("BorderCenterZ", JInt(0)),
      ("BorderDamagePerBlock", JReal(0.2)),
      ("BorderSafeZone", JInt(5)),
      ("BorderSize", JInt(60000000)),
      ("BorderSizeLerpTarget", JInt(60000000)),
      ("BorderSizeLerpTime", JInt(0)),
      ("BorderWarningBlocks", JInt(5)),
      ("BorderWarningTime", JInt(15)),
      ("clearWeatherTime", JInt(0)),
      ("DataPacks", JObj([("Disabled", JArr([])), ("Enabled", JArr([]))])),
      ("DataVersion", JInt(2230)),
      ("Difficulty", JInt(2)),
      ("DifficultyLocked", JInt(0)),
      ("DayTime", JInt(3000)),
      ("GameType", JInt(0)),
      ("GameRules", JObj([])),
      ("generatorName", JStr("default")),
      ("generatorVersion", JInt(0)),
      ("hardcore", JInt(0)),
      ("initialized", JInt(0)),
      ("LastPlayed", JInt(0)),
      ("LevelName", JStr("FastWorldCreator_DefaultName")),
      ("MapFeatures", JInt(1)),
      ("RandomSeed", JInt(0)),
      ("raining", JInt(0)),
      ("rainTime", JInt(0)),
      ("thundering", JInt(0)),
      ("thunderTime", JInt(0)),
      ("Time", JInt(0)),
      ("version", JInt(19133)),
      ("Version", JObj(TemplateVersionDict()))
    ]
  }

  /** The template's `Version` compound. */
  function TemplateVersionDict(): Fields {
    [("Id", JInt(2230)), ("Name", JStr("1.15.2")), ("Snapshot", JInt(0))]
  }

  /** `get_default_gamerules()`: every rule name with its default value. */
  function DefaultGamerules(): Fields {
    [
      ("announceAdvancements", JBool(true)),
      ("commandBlockOutput", JBool(true)),
      ("disableElytraMovementCheck", JBool(false)),
      ("disableRaids", JBool(false)),
      ("doDaylightCycle", JBool(true)),
      ("doEntityDrops", JBool(true)),
      ("doFireTick", JBool(true)),
      ("doInsomnia", JBool(true)),
      ("doImmediateRespawn", JBool(false)),
      ("doLimitedCrafting", JBool(false)),
      ("doMobLoot", JBool(true)),
      ("doMobSpawning", JBool(true)),
      ("doPatrolSpawning", JBool(true)),
      ("doTileDrops", JBool(true)),
      ("doTraderSpawning", JBool(true)),
      ("doWeatherCycle", JBool(true)),
      ("drowningDamage", JBool(true)),
      ("fallDamage", JBool(true)),
      ("fireDamage", JBool(true)),
      ("keepInventory", JBool(false)),
      ("logAdminCommands", JBool(true)),
      ("maxCommandChainLength", JInt(65536)),
      ("maxEntityCramming", JInt(24)),
      ("mobGriefing", JBool(true)),
      ("naturalRegeneration", JBool(true)),
      ("randomTickSpeed", JInt(3)),
      ("reducedDebugInfo", JBool(false)),
      ("sendCommandFeedback", JBool(true)),
      ("showDeathMessages", JBool(true)),
      ("spawnRadius", JInt(10)),
      ("spectatorsGenerateChunks", JBool(true))
    ]
  }

  /** The template's own data version (2230) agrees with its `Version.Id`. */
  lemma TemplateDataVersion()
    ensures Get(Template(), "DataVersion") == Some(JInt(2230))
  {
    GetAt(Template(), 12, "DataVersion");
  }

  lemma TemplateVersion()
    ensures Get(Template(), "Version") == Some(JObj(TemplateVersionDict()))
    ensures Get(TemplateVersionDict(), "Id") == Some(JInt(2230))
  {
    GetAt(Template(), 32, "Version");
    GetAt(TemplateVersionDict(), 0, "Id");
  }

  /** The template sets no generator options: only the buffet and flat
      generators add them. */
  lemma TemplateHasNoGeneratorOptions()
    ensures !HasKey(Template(), "generatorOptions")
  {
    var t := Template();
    forall j | 0 <= j < |t| ensures t[j].0 != "generatorOptions" {
    }
    AbsentKey(t, "generatorOptions");
  }

  /** The template leaves the spawn position to the game. */
  lemma TemplateHasNoSpawn(k: string)
    requires k == "SpawnX" || k == "SpawnY" || k == "SpawnZ"
    ensures !HasKey(Template(), k)
  {
    var t := Template();
    forall j | 0 <= j < |t| ensures t[j].0 != k {
    }
    AbsentKey(t, k);
  }

  /** The template's game rules are empty. */
  lemma TemplateGameRules()
    ensures Get(Template(), "GameRules") == Some(JObj([]))
  {
    GetAt(Template(), 17, "GameRules");
  }

  /** Both of the template's data pack lists are empty. */
  lemma TemplateDataPacks()
    ensures Get(Template(), "DataPacks") == Some(JObj([("Disabled", JArr([])), ("Enabled", JArr([]))]))
  {
    GetAt(Template(), 11, "DataPacks");
  }

  /** The positions of the four rules whose default is an integer. */
  const NumericRuleSlots: set<nat> := {21, 22, 25, 29}

  /** 31 rules; every default is a boolean except the four integers
      `maxCommandChainLength` 65536, `maxEntityCramming` 24,
      `randomTickSpeed` 3 and `spawnRadius` 10. */
  lemma DefaultGamerulesShape()
    ensures |DefaultGamerules()| == 31
    ensures forall i :: 0 <= i < 31 ==> (DefaultGamerules()[i].1.JBool? <==> i !in NumericRuleSlots)
    ensures DefaultGamerules()[21] == ("maxCommandChainLength", JInt(65536))
    ensures DefaultGamerules()[22] == ("maxEntityCramming", JInt(24))
    ensures DefaultGamerules()[25] == ("randomTickSpeed", JInt(3))
    ensures DefaultGamerules()[29] == ("spawnRadius", JInt(10))
  {
  }
}
