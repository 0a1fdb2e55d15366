/** The fixture the app starts from, and the priority palette. */
module SampleData {
  import opened Common
  import opened Seqs
  import opened Entities

  const SampleBoards: seq<Board> := [
    Board("board-1", Some("我的專案"), Some([
      List("list-1", "待辦事項", [
        Card("card-1", "設計使用者介面", "設計登入頁面和主頁面", "high", "2024-01-15", ["設計", "前端"]),
        Card("card-2", "建立資料庫", "設計使用者資料表結構", "medium", "2024-01-20", ["後端", "資料庫"])
      ]),
      List("list-2", "進行中", [
        Card("card-3", "實作 API", "建立 RESTful API 端點", "high", "2024-01-18", ["後端", "API"])
      ]),
      List("list-3", "已完成", [
        Card("card-4", "專案規劃", "完成專案需求分析和時程規劃", "low", "2024-01-10", ["規劃"])
      ])
    ]))
  ]

  /** The reducer's initial state. */
  const InitialState: State := State(SampleBoards, "board-1")

  /** The app starts on a board that renders: three lists with distinct ids, holding four cards. */
  lemma InitialStateRenders()
    ensures CurrentBoardRenders(InitialState)
    ensures |CurrentLists(InitialState)| == 3 && UniqueListIds(CurrentLists(InitialState))
    ensures |AllCards(CurrentLists(InitialState))| == 4
  {
    assert FindIndex(SampleBoards, (b: Board) => b.id == "board-1") == 0;
    var ls := CurrentLists(InitialState);
    assert AllCards(ls[2..]) == ls[2].cards + AllCards(ls[3..]);
  }

  datatype PriorityOption = PriorityOption(value: string, text: string, color: string)

  const PriorityOptions: seq<PriorityOption> := [
    PriorityOption("low", "低", "#61bd4f"),
    PriorityOption("medium", "中", "#f2d600"),
    PriorityOption("high", "高", "#eb5a46")
  ]
}
