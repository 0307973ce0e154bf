/**
 * The fixed content of the journey: the twenty questions asked in order and
 * the five year colours a visitor can choose from.
 */
module Catalog {
  import opened Wrappers

  /** A question card's data; the placeholder is optional. */
  datatype Question = Question(
    id: string,
    category: string,
    textZh: string,
    textEn: string,
    placeholder: Option<string>)

  datatype ParticleType = Stone | Feather

  /** A year colour; its CSS gradients and preview class are presentation only and not kept. */
  datatype YearColor = YearColor(
    id: string,
    name: string,
    desc: string,
    aiContext: string,
    particleType: ParticleType,
    particleColor: string)

  /** The number of questions. */
  const N: nat := 20

  /** The question ids, in the order the questions are asked. */
  const QuestionIds: seq<string> :=
    ["q1", "q2", "q3", "q4", "q5", "q6", "q7", "q8", "q9", "q10", "q11", "q12", "q13", "q14", "q15", "q16", "q17", "q18", "q19", "q20"]

  /** The questions, in the order they are asked. */
  const Questions: seq<Question> := [
    Question(
      "q1",
      "生活实录 (Life Records)",
      "年度私藏：2025 年，哪一件被你带回家的物件，最真切地抚平了你的生活？",
      "Which object brought home this year most truly soothed your life?",
      Some("哪怕是一个普通的杯子，只要它曾温暖你...")),
    Question(
      "q2",
      "生活实录 (Life Records)",
      "栖息之地：除了床和工位，这一年哪个角落承载了你最多的发呆或思考时刻？",
      "Besides your bed and desk, which corner held your most moments of daydreaming or thinking?",
      Some("那个让你感到安全的角落是哪里？")),
    Question(
      "q3",
      "生活实录 (Life Records)",
      "耳边回响：哪一段旋律响起时，能让你瞬间辨认出 2025 年的味道？",
      "Which melody, when played, instantly makes you recognize the flavor of 2025?",
      Some("或许是一句歌词，或许是雨声...")),
    Question(
      "q4",
      "生活实录 (Life Records)",
      "生命韵律：这一年，你的身体是在规律的节奏中自洽，还是在疲惫的缝隙里喘息？",
      "This year, was your body consistent in rhythm, or gasping for breath in the cracks of fatigue?",
      Some("诚实地面对身体的感受，它会告诉你答案。")),
    Question(
      "q5",
      "生活实录 (Life Records)",
      "视觉切片：翻开手机相册，哪张照片或截图是你 2025 年最不舍得删去的记忆锚点？",
      "Opening your photo album, which photo or screenshot is the memory anchor you are most reluctant to delete?",
      Some("描述那个画面，不用在意构图，只在意回忆。")),
    Question(
      "q6",
      "行动痕迹 (Action Traces)",
      "微光技能：今年你点亮了哪项以前从未尝试过的小技能，让生活多了一点底气？",
      "What small skill did you light up this year that you had never tried before, adding a bit of confidence to life?",
      Some("哪怕只是学会了做一道菜...")),
    Question(
      "q7",
      "行动痕迹 (Action Traces)",
      "长情刻度：这一年，你最执着、甚至有些“笨拙”地坚持下来的一件事是什么？",
      "What is the one thing you persisted in this year, perhaps obsessively or even \"clumsily\"?",
      Some("那些看似无用的坚持，往往最珍贵。")),
    Question(
      "q8",
      "行动痕迹 (Action Traces)",
      "远方投生：2025 年，哪次抵达让你觉得短暂地逃离了平庸，见到了不一样的风景？",
      "In 2025, which arrival made you feel like you briefly escaped mediocrity and saw a different scenery?",
      Some("不一定是旅行，也可以是心灵的抵达。")),
    Question(
      "q9",
      "行动痕迹 (Action Traces)",
      "清空仪式：今年你从生命中彻底丢弃或告别的最沉重的一样东西（实物或旧物）是什么？",
      "What was the heaviest thing (physical or past) that you completely discarded or said goodbye to this year?",
      Some("放手的那一刻，你的感受是？")),
    Question(
      "q10",
      "行动痕迹 (Action Traces)",
      "职业剪影：在工作或学业的奔波中，哪一个瞬间让你感受到“终于熬过来了”的如释重负？",
      "In the rush of work or study, which moment made you feel the relief of \"finally surviving it\"?",
      Some("哪怕只有几秒钟的轻松...")),
    Question(
      "q11",
      "人际连接 (Connections)",
      "频繁坐标：谁是你 2025 年通讯录里那个最常亮起、也最让你安心的名字？",
      "Who is the name in your 2025 contacts that lit up most often and brought you the most peace?",
      Some("写下那个名字，或者那个称呼。")),
    Question(
      "q12",
      "人际连接 (Connections)",
      "意外相逢：今年哪一位新相识的人，像一束光一样照亮了你某个认知盲区？",
      "Which new acquaintance this year illuminated a cognitive blind spot like a beam of light?",
      Some("他/她说的一句话，让你记到了现在...")),
    Question(
      "q13",
      "人际连接 (Connections)",
      "无名暖意：记录一个来自陌生人或世界的微小善意，它曾在哪个寒冷的时刻治愈过你？",
      "Record a tiny kindness from a stranger or the world that healed you in a cold moment.",
      Some("那个瞬间，世界变得温柔了吗？")),
    Question(
      "q14",
      "人际连接 (Connections)",
      "关系的减法：这一年，你淡出了哪一段不再产生共振的关系，找回了多少自在？",
      "Which relationship that no longer resonated did you fade out of this year, and how much freedom did you regain?",
      Some("离开也是一种成长。")),
    Question(
      "q15",
      "情绪碎片 (Emotional Fragments)",
      "精神避难所：当世界喧嚣或压力来袭时，你习惯躲进哪种习惯或爱好中悄悄“回血”？",
      "When the world is noisy or stressful, what habit or hobby do you hide in to quietly \"regenerate\"?",
      Some("那里只有你和安宁。")),
    Question(
      "q16",
      "情绪碎片 (Emotional Fragments)",
      "年度旁白：如果给你的 2025 配上一个高频出现的口头禅，那个词会是什么？",
      "If you were to dub your 2025 with a frequently used catchphrase, what would it be?",
      Some("是你对自己说得最多的一句话。")),
    Question(
      "q17",
      "情绪碎片 (Emotional Fragments)",
      "泪水出口：今年哪一次被文艺作品（书影音）击中的瞬间，让你借由他人的故事流了自己的泪？",
      "Which moment struck by a literary/artistic work (book/movie/music) made you cry your own tears through another's story?",
      Some("是感动，还是释怀？")),
    Question(
      "q18",
      "情绪碎片 (Emotional Fragments)",
      "破壳瞬间：2025 年，你做过最勇敢、最不顾后果的一次“自我主张”是什么？",
      "In 2025, what was the bravest, most reckless act of \"self-assertion\" you performed?",
      Some("那一刻，你只听从了自己。")),
    Question(
      "q19",
      "告别与交棒 (Farewell)",
      "生命色彩：如果 2025 年是一块画布，你会为它涂抹上怎样的底色和评分？",
      "If 2025 were a canvas, what background color and score would you give it?",
      Some("颜色代表心情，分数代表无悔。")),
    Question(
      "q20",
      "告别与交棒 (Farewell)",
      "通关密语：跨过 2025 的门槛，你想对那个在未来守候的自己，预留一个什么词作为接头暗号？",
      "Crossing the threshold of 2025, what word do you want to leave as a secret code for your future self?",
      Some("一个词，连接现在与未来。"))
  ]

  /** The year colours offered on the colour selection screen. */
  const ColorOptions: seq<YearColor> := [
    YearColor(
      "sunshine",
      "阳光金 · Sunshine",
      "流动的光斑，温暖的定力。",
      "Sunshine Gold. Tone: Radiant, warm, optimistic, confident but grounded. Focus on brightness, hope, and clarity. Like the noon sun warming the earth.",
      Stone,
      "rgba(230, 199, 103, 0.9)"),
    YearColor(
      "serene",
      "静谧蓝 · Serene",
      "深海的沉默，理性的回响。",
      "Serene Blue. Tone: Calm, deep, intellectual, slightly melancholic but peaceful. Like the deep sea.",
      Feather,
      "rgba(142, 154, 175, 0.6)"),
    YearColor(
      "mint",
      "薄荷绿 · Healing",
      "新生的缝隙，治愈的呼吸。",
      "Sage/Mint Green. Tone: Healing, organic, growing, fresh. Focus on recovery and nature.",
      Feather,
      "rgba(166, 176, 142, 0.6)"),
    YearColor(
      "stoic",
      "沉稳灰 · Stoic",
      "极简的留白，内向的秩序。",
      "Stoic Gray. Tone: Minimalist, rational, objective, quiet, strong. Focus on structure and truth.",
      Stone,
      "rgba(150, 150, 150, 0.8)"),
    YearColor(
      "maple",
      "枫叶红 · Maple",
      "燃烧的诗意，成熟的深情。",
      "Maple Red. Tone: Deep, mature, passionate, poetic, autumnal. Focus on harvest, settling, rich emotions, and the beauty of passing time.",
      Feather,
      "rgba(217, 108, 99, 0.8)")
  ]

  /** The i-th question carries the i-th id. */
  lemma QuestionsCarryIds()
    ensures |Questions| == |QuestionIds| == N
    ensures forall i :: 0 <= i < N ==> Questions[i].id == QuestionIds[i]
  {
  }

  /** No two questions share an id, so an answer map keyed by id holds one answer per question. */
  lemma QuestionIdsDistinct()
    ensures forall i, j :: 0 <= i < j < |QuestionIds| ==> QuestionIds[i] != QuestionIds[j]
  {
  }
}
