/**
 * The three risk levels shared by the LRINEC category and the final risk
 * label, with the names the application shows for them.
 */
module Tiers {

  datatype Tier = Low | Intermediate | High {

    /** The displayed label: "Bajo", "Intermedio" or "Alto". */
    function Name(): string
    {
      match this
      case Low => "Bajo"
      case Intermediate => "Intermedio"
      case High => "Alto"
    }

    /** Position in the order Low < Intermediate < High. */
    function Rank(): nat
    {
      match this
      case Low => 0
      case Intermediate => 1
      case High => 2
    }
  }

}
