/**
 * The holder's stored green cards: a green card row together with the
 * origins and credentials that belong to it (the `GreenCard` relation of
 * the holder database). These are plain records; only the fields that the
 * dashboard policy reads carry meaning in this model.
 */
module GreenCards {

  datatype GreenCardType = Domestic | Eu

  /** The kind of event an origin proves. */
  datatype OriginType = Vaccination | Test | Recovery

  datatype GreenCardEntity = GreenCardEntity(id: int, walletId: int, cardType: GreenCardType)

  /** Times are epoch seconds. */
  datatype OriginEntity = OriginEntity(
    id: int, greenCardId: int, originType: OriginType,
    eventTime: int, expirationTime: int, validFrom: int)

  datatype CredentialEntity = CredentialEntity(
    id: int, greenCardId: int, data: seq<bv8>, credentialVersion: int,
    validFrom: int, expirationTime: int)

  datatype GreenCard = GreenCard(
    greenCardEntity: GreenCardEntity,
    origins: seq<OriginEntity>,
    credentialEntities: seq<CredentialEntity>)

  /** An EU green card with at least one vaccination origin. */
  predicate IsEuVaccination(card: GreenCard)
  {
    && card.greenCardEntity.cardType == Eu
    && exists i :: 0 <= i < |card.origins| && card.origins[i].originType == Vaccination
  }
}
