/** The eight planets of the solar system, in the order of the `PlanetModel`
    enumeration, with their French names. Their orbital elements feed a
    trigonometric model that is not part of this model. */
module PlanetModel {

  datatype PlanetModel = Mercury | Venus | Earth | Mars | Jupiter | Saturn | Uranus | Neptune {
    function FrenchName(): string {
      match this
      case Mercury => "Mercure"
      case Venus => "Vénus"
      case Earth => "Terre"
      case Mars => "Mars"
      case Jupiter => "Jupiter"
      case Saturn => "Saturne"
      case Uranus => "Uranus"
      case Neptune => "Neptune"
    }
  }

  /** `PlanetModel.ALL`: the values in declaration order. */
  const ALL: seq<PlanetModel> := [Mercury, Venus, Earth, Mars, Jupiter, Saturn, Uranus, Neptune]

  /** Every planet is listed exactly once. */
  lemma AllListsEveryPlanetOnce(p: PlanetModel)
    ensures p in ALL
    ensures forall i, j :: 0 <= i < j < |ALL| ==> ALL[i] != ALL[j]
  {
  }
}
