/**
 * The Ticket entity (Models/TicketModel.cs). A ticket carries a QR code and a
 * security hash. Both come from foreign calls that are parameters here: the QR
 * code is Base64(SHA-256) of a text built from the id, owner, event, unique
 * identifier and the current tick count, and the security hash is
 * Base64(HMAC-SHA512) of a text built from the id, owner, event, QR code,
 * validity and unique identifier. Times, ticks and GUIDs are integers
 * supplied by the caller.
 */
module TicketModel {
  import opened Wrappers

  /** What the QR code is derived from. */
  datatype QrSeed = QrSeed(id: int, ownerId: int, eventId: int, uniqueIdentifier: int, ticks: int)

  /** What the security hash is derived from. */
  datatype SealInput = SealInput(id: int, ownerId: int, eventId: int, qrCode: Option<string>, isValid: bool, uniqueIdentifier: int)

  /** The two foreign hash computations. */
  datatype TicketCrypto = TicketCrypto(qrCode: QrSeed -> string, seal: SealInput -> string)

  /** The stored field values of a ticket (one row of the Ticket table). */
  datatype TicketRow = TicketRow(
    Id: int,
    OwnerId: int,
    EventId: int,
    CreatedAt: int,
    UsedAt: Option<int>,
    QRCode: Option<string>,
    IsValid: bool,
    ResoldAt: Option<int>,
    PreviousOwnerId: Option<int>,
    SecurityHash: Option<string>,
    UniqueIdentifier: int)

  /** A ticket as the object initialiser creates it: every field at its declared default. */
  function FreshTicket(ownerId: int, eventId: int, createdAt: int, uniqueIdentifier: int): (t: TicketRow)
    ensures t.IsValid && t.UsedAt.None? && t.ResoldAt.None? && t.PreviousOwnerId.None?
    ensures t.QRCode.None? && t.SecurityHash.None? && t.Id == 0
    ensures t.OwnerId == ownerId && t.EventId == eventId
  {
    TicketRow(0, ownerId, eventId, createdAt, None, None, true, None, None, None, uniqueIdentifier)
  }

  /** UpdateSecurityHash: the seal of the ticket's current fields. */
  function SealOf(t: TicketRow, crypto: TicketCrypto): string {
    crypto.seal(SealInput(t.Id, t.OwnerId, t.EventId, t.QRCode, t.IsValid, t.UniqueIdentifier))
  }

  /** VerifyTicket: the stored hash is the seal of the current fields, and the ticket is valid. */
  predicate Verifies(t: TicketRow, crypto: TicketCrypto) {
    t.SecurityHash == Some(SealOf(t, crypto)) && t.IsValid
  }

  /** GenerateQRCode: a new QR code first, then the seal over the fields including that code. */
  function WithQRCode(t: TicketRow, crypto: TicketCrypto, ticks: int): (r: TicketRow)
    ensures r.QRCode == Some(crypto.qrCode(QrSeed(t.Id, t.OwnerId, t.EventId, t.UniqueIdentifier, ticks)))
    ensures r.SecurityHash == Some(SealOf(r, crypto))
    ensures r == t.(QRCode := r.QRCode, SecurityHash := r.SecurityHash)
  {
    var withCode := t.(QRCode := Some(crypto.qrCode(QrSeed(t.Id, t.OwnerId, t.EventId, t.UniqueIdentifier, ticks))));
    withCode.(SecurityHash := Some(SealOf(withCode, crypto)))
  }

  /** Resell: ownership moves, the ticket is revalidated and issued a new identifier and codes. */
  function Resold(t: TicketRow, newOwnerId: int, now: int, newIdentifier: int, crypto: TicketCrypto, ticks: int): (r: TicketRow)
    ensures r.PreviousOwnerId == Some(t.OwnerId) && r.OwnerId == newOwnerId
    ensures r.IsValid && r.ResoldAt == Some(now) && r.UniqueIdentifier == newIdentifier
    ensures r.Id == t.Id && r.EventId == t.EventId && r.UsedAt == t.UsedAt && r.CreatedAt == t.CreatedAt
    ensures r.QRCode == Some(crypto.qrCode(QrSeed(t.Id, newOwnerId, t.EventId, newIdentifier, ticks)))
  {
    WithQRCode(t.(PreviousOwnerId := Some(t.OwnerId), OwnerId := newOwnerId, ResoldAt := Some(now),
                  IsValid := true, UniqueIdentifier := newIdentifier), crypto, ticks)
  }

  /** Right after GenerateQRCode, VerifyTicket answers exactly IsValid. */
  lemma GeneratedVerifiesIffValid(t: TicketRow, crypto: TicketCrypto, ticks: int)
    ensures Verifies(WithQRCode(t, crypto, ticks), crypto) == t.IsValid
  {
  }

  /** An invalid ticket never verifies, whatever its hash. */
  lemma InvalidNeverVerifies(t: TicketRow, crypto: TicketCrypto)
    requires !t.IsValid
    ensures !Verifies(t, crypto)
  {
  }

  /** A resold ticket verifies (it is valid and freshly sealed) and still carries its old UsedAt. */
  lemma ResoldVerifies(t: TicketRow, newOwnerId: int, now: int, newIdentifier: int, crypto: TicketCrypto, ticks: int)
    ensures Verifies(Resold(t, newOwnerId, now, newIdentifier, crypto, ticks), crypto)
    ensures Resold(t, newOwnerId, now, newIdentifier, crypto, ticks).UsedAt == t.UsedAt
  {
  }

  /** The Ticket object, whose methods update its fields in place. */
  class Ticket {
    var Id: int
    var OwnerId: int
    var EventId: int
    var CreatedAt: int
    var UsedAt: Option<int>
    var QRCode: Option<string>
    var IsValid: bool
    var ResoldAt: Option<int>
    var PreviousOwnerId: Option<int>
    var SecurityHash: Option<string>
    var UniqueIdentifier: int

    /** The object's current field values. */
    function Row(): TicketRow
      reads this
    {
      TicketRow(Id, OwnerId, EventId, CreatedAt, UsedAt, QRCode, IsValid, ResoldAt,
                PreviousOwnerId, SecurityHash, UniqueIdentifier)
    }

    /** `new Ticket { OwnerId = …, EventId = …, CreatedAt = … }` with a fresh GUID. */
    constructor (ownerId: int, eventId: int, createdAt: int, uniqueIdentifier: int)
      ensures Row() == FreshTicket(ownerId, eventId, createdAt, uniqueIdentifier)
    {
      Id := 0;
      OwnerId := ownerId;
      EventId := eventId;
      CreatedAt := createdAt;
      UsedAt := None;
      QRCode := None;
      IsValid := true;
      ResoldAt := None;
      PreviousOwnerId := None;
      SecurityHash := None;
      UniqueIdentifier := uniqueIdentifier;
    }

    /** UpdateSecurityHash. */
    function UpdateSecurityHash(crypto: TicketCrypto): (h: string)
      reads this
      ensures h == SealOf(Row(), crypto)
    {
      crypto.seal(SealInput(Id, OwnerId, EventId, QRCode, IsValid, UniqueIdentifier))
    }

    /** VerifyTicket. */
    predicate VerifyTicket(crypto: TicketCrypto)
      reads this
      ensures VerifyTicket(crypto) == Verifies(Row(), crypto)
    {
      UpdateSecurityHash(crypto) == SecurityHash.GetOr("") && SecurityHash.Some? && IsValid
    }

    /** GenerateQRCode: sets QRCode, then SecurityHash from the fields including the new code. */
    method GenerateQRCode(crypto: TicketCrypto, ticks: int)
      modifies this
      ensures Row() == WithQRCode(old(Row()), crypto, ticks)
      ensures VerifyTicket(crypto) == IsValid
    {
      QRCode := Some(crypto.qrCode(QrSeed(Id, OwnerId, EventId, UniqueIdentifier, ticks)));
      SecurityHash := Some(UpdateSecurityHash(crypto));
    }

    /** Resell: hands the ticket to a new owner and reissues its codes. */
    method Resell(newOwnerId: int, now: int, newIdentifier: int, crypto: TicketCrypto, ticks: int)
      modifies this
      ensures Row() == Resold(old(Row()), newOwnerId, now, newIdentifier, crypto, ticks)
      ensures VerifyTicket(crypto)
    {
      PreviousOwnerId := Some(OwnerId);
      OwnerId := newOwnerId;
      ResoldAt := Some(now);
      IsValid := true;
      UniqueIdentifier := newIdentifier;
      GenerateQRCode(crypto, ticks);
    }
  }
}
