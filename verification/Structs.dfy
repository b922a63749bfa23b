/** The C layout of `ShmHeader` and `SlotMeta`, which is the readers' view, against the writers' raw
    offsets. */
module Structs {
  import opened Layout
  import opened Slots
  import opened ShmRegion

  datatype Field = Field(size: nat, align: nat)

  const FIELDS := 21

  /** The two structures at fixed places of the control region. */
  datatype Struct = ShmHeader | SlotMeta

  function FieldOf(st: Struct, k: nat): Field {
    match st
    case ShmHeader => HeaderField(k)
    case SlotMeta => SlotField(k)
  }

  /** Magic, version, slot count, heap offset, heap size and allocator head, then reserved bytes. */
  function HeaderField(k: nat): Field {
    if k < 6 then Field(4, 4) else Field(40, 1)
  }

  /** The fields of `SlotMeta` in order, padding included; numbers are aligned to their size. */
  function SlotField(k: nat): Field {
    match k
    case 0 => Field(4, 4)                       // status
    case 1 => Field(36, 1)                      // req_id
    case 2 => Field(1, 1)                       // method
    case 3 => Field(3, 1)
    case 4 => Field(4, 4)                       // meta_offset
    case 5 => Field(2, 2)                       // meta_len
    case 6 => Field(2, 2)
    case 7 => Field(4, 4)                       // body_offset
    case 8 => Field(4, 4)                       // body_len
    case 9 => Field(1, 1)                       // body_overflow
    case 10 => Field(3, 1)
    case 11 => Field(2, 2)                      // resp_status
    case 12 => Field(2, 2)
    case 13 => Field(4, 4)                      // resp_meta_offset
    case 14 => Field(2, 2)                      // resp_meta_len
    case 15 => Field(2, 2)
    case 16 => Field(4, 4)                      // resp_body_offset
    case 17 => Field(4, 4)                      // resp_body_len
    case 18 => Field(1, 1)                      // resp_body_overflow
    case 19 => Field(3, 1)
    case _ => Field(40, 1)                      // reserved
  }

  function RoundUp(n: nat, align: nat): nat {
    if align == 0 then n else (n + align - 1) / align * align
  }

  /** Where a C compiler puts field `k`: after the one before, rounded up to its alignment. */
  function Offset(st: Struct, k: nat): nat {
    if k == 0 then 0 else RoundUp(Offset(st, k - 1) + FieldOf(st, k - 1).size, FieldOf(st, k).align)
  }

  lemma NextOffset(st: Struct, k: nat, before: nat)
    requires k > 0 && Offset(st, k - 1) == before
    ensures Offset(st, k) == RoundUp(before + FieldOf(st, k - 1).size, FieldOf(st, k).align)
  {
  }

  lemma RequestOffsets()
    ensures Offset(SlotMeta, 0) == 0 && Offset(SlotMeta, 1) == 4 && Offset(SlotMeta, 2) == 40
    ensures Offset(SlotMeta, 4) == 44 && Offset(SlotMeta, 5) == 48 && Offset(SlotMeta, 7) == 52
    ensures Offset(SlotMeta, 8) == 56 && Offset(SlotMeta, 9) == 60 && Offset(SlotMeta, 11) == 64
  {
    assert Offset(SlotMeta, 0) == 0;
    hide Offset;
    NextOffset(SlotMeta, 1, 0);
    NextOffset(SlotMeta, 2, 4);
    NextOffset(SlotMeta, 3, 40);
    NextOffset(SlotMeta, 4, 41);
    NextOffset(SlotMeta, 5, 44);
    NextOffset(SlotMeta, 6, 48);
    NextOffset(SlotMeta, 7, 50);
    NextOffset(SlotMeta, 8, 52);
    NextOffset(SlotMeta, 9, 56);
    NextOffset(SlotMeta, 10, 60);
    NextOffset(SlotMeta, 11, 61);
  }

  lemma ResponseOffsets()
    ensures Offset(SlotMeta, 13) == 68 && Offset(SlotMeta, 14) == 72 && Offset(SlotMeta, 16) == 76
    ensures Offset(SlotMeta, 17) == 80 && Offset(SlotMeta, 18) == 84 && Offset(SlotMeta, 20) == 88
  {
    hide Offset;
    RequestOffsets();
    NextOffset(SlotMeta, 12, 64);
    NextOffset(SlotMeta, 13, 66);
    NextOffset(SlotMeta, 14, 68);
    NextOffset(SlotMeta, 15, 72);
    NextOffset(SlotMeta, 16, 74);
    NextOffset(SlotMeta, 17, 76);
    NextOffset(SlotMeta, 18, 80);
    NextOffset(SlotMeta, 19, 84);
    NextOffset(SlotMeta, 20, 85);
  }

  /** Every field that a reader takes from the structure lies where the writers put it: status at 0, id
      at 4, method at 40, response status at 64, and each direction's metadata offset and length, body
      offset and length and overflow marker at +0, +4, +8, +12 and +16 from its field base. */
  lemma LayoutsAgree()
    ensures Offset(SlotMeta, 0) == 0 && Offset(SlotMeta, 1) == 4 && Offset(SlotMeta, 2) == 40
    ensures Offset(SlotMeta, 11) == 64
    ensures var q := FieldBase(Req);
            Offset(SlotMeta, 4) == q && Offset(SlotMeta, 5) == q + 4 && Offset(SlotMeta, 7) == q + 8
            && Offset(SlotMeta, 8) == q + 12 && Offset(SlotMeta, 9) == q + 16
    ensures var r := FieldBase(Rsp);
            Offset(SlotMeta, 13) == r && Offset(SlotMeta, 14) == r + 4 && Offset(SlotMeta, 16) == r + 8
            && Offset(SlotMeta, 17) == r + 12
            && Offset(SlotMeta, 18) == r + 16
    ensures Offset(SlotMeta, FIELDS - 1) + SlotField(FIELDS - 1).size == SLOT_META_SIZE
  {
    hide Offset;
    RequestOffsets();
    ResponseOffsets();
  }

  /** The words of the header lie where `init_control` puts them, word after word from the start, and the
      structure fills the 64 bytes before the slot table. */
  lemma HeaderAgrees(g: Geometry)
    ensures |HeaderWrites(g)| == 6
    ensures forall k :: 0 <= k < 6 ==> HeaderWrites(g)[k].off == Offset(ShmHeader, k) == 4 * k
    ensures Offset(ShmHeader, 6) + HeaderField(6).size == SHM_HEADER_SIZE == SlotBase(0)
  {
    assert Offset(ShmHeader, 0) == 0;
    hide Offset;
    NextOffset(ShmHeader, 1, 0);
    NextOffset(ShmHeader, 2, 4);
    NextOffset(ShmHeader, 3, 8);
    NextOffset(ShmHeader, 4, 12);
    NextOffset(ShmHeader, 5, 16);
    NextOffset(ShmHeader, 6, 20);
  }
}
