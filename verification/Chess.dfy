/** The chess vocabulary of the analysis; the rules of the game themselves are a parameter. */
module Chess {
  import opened Common

  datatype Color = White | Black {
    function Other(): Color {
      if this == White then Black else White
    }
  }

  /** `StockfishScore` holds exactly one of its two fields. Scores are relative to the side to move. */
  datatype Score = Centipawns(centipawns: int) | MateIn(moves: int)

  /** A move string: one that `Move.from_uci` accepts, or any other. */
  datatype Uci = Move(code: nat) | Malformed(text: nat)

  /** "0000" */
  const NULL_MOVE := Move(0)

  /** A position: whose turn it is, and everything else a FEN records. */
  datatype Board = Board(turn: Color, rest: nat)

  datatype Rules = Rules(
    start: Board,
    parse: nat -> Option<Board>,
    legal: (Board, nat) -> bool,
    push: (Board, nat) -> nat,
    san: (Board, nat) -> nat
  )

  /** Pushing a move always passes the turn. */
  function Play(rules: Rules, board: Board, code: nat): Board {
    Board(board.turn.Other(), rules.push(board, code))
  }

  function CodeOf(move: Uci): nat {
    if move.Move? then move.code else 0
  }

  predicate PlayableOn(rules: Rules, board: Board, move: Uci) {
    move.Move? && rules.legal(board, move.code)
  }

  /** The board after the first k moves. */
  function BoardAfter(rules: Rules, start: Board, moves: seq<Uci>, k: nat): Board
    requires k <= |moves|
  {
    if k == 0 then start else Play(rules, BoardAfter(rules, start, moves, k - 1), CodeOf(moves[k - 1]))
  }

  /** The first k moves can be played one after the other. */
  predicate Playable(rules: Rules, start: Board, moves: seq<Uci>, k: nat)
    requires k <= |moves|
  {
    forall i :: 0 <= i < k ==> moves[i].Move? && rules.legal(BoardAfter(rules, start, moves, i), moves[i].code)
  }
}
