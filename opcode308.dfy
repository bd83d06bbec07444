/** The `Opcode308` bytecode table: the CPython 3.8 opcode numbering
    (`HAVE_ARGUMENT = 90`) together with the Erg-specific opcodes, each
    mnemonic carrying an explicit byte discriminant. */
module Opcode308 {
  import opened Prelude

  /** CPython's first opcode number that carries an argument. */
  const HAVE_ARGUMENT: int := 90
  /** The first Erg opcode number that carries no argument again. */
  const FIRST_ERG_NO_ARG: int := 220

  /** One mnemonic of the table. The Erg-specific mnemonics and
      `NOT_IMPLEMENTED` are declared first and the CPython mnemonics after
      them. The declaration order carries no meaning: each mnemonic's byte
      is the one `Encode` assigns. */
  datatype Opcode =
    | ERG_POP_NTH
    | ERG_PEEK_NTH
    | ERG_INC
    | ERG_DEC
    | ERG_LOAD_FAST_IMMUT
    | ERG_STORE_FAST_IMMUT
    | ERG_MOVE_FAST
    | ERG_CLONE_FAST
    | ERG_COPY_FAST
    | ERG_REF_FAST
    | ERG_REF_MUT_FAST
    | ERG_MOVE_OUTER
    | ERG_CLONE_OUTER
    | ERG_COPY_OUTER
    | ERG_REF_OUTER
    | ERG_REF_MUT_OUTER
    | ERG_LESS_THAN
    | ERG_LESS_EQUAL
    | ERG_EQUAL
    | ERG_NOT_EQUAL
    | ERG_MAKE_SLOT
    | ERG_MAKE_TYPE
    | ERG_MAKE_PURE_FUNCTION
    | ERG_CALL_PURE_FUNCTION
    | ERG_LOAD_EMPTY_SLOT
    | ERG_LOAD_EMPTY_STR
    | ERG_LOAD_1_NAT
    | ERG_LOAD_1_INT
    | ERG_LOAD_1_REAL
    | ERG_LOAD_NONE
    | ERG_MUTATE
    | ERG_STORE_SUBSCR
    | ERG_BINARY_SUBSCR
    | ERG_BINARY_RANGE
    | ERG_TRY_BINARY_DIVIDE
    | ERG_BINARY_TRUE_DIVIDE
    | NOT_IMPLEMENTED
    | POP_TOP
    | ROT_TWO
    | ROT_THREE
    | DUP_TOP
    | DUP_TOP2
    | ROT_FOUR
    | NOP
    | UNARY_POSITIVE
    | UNARY_NEGATIVE
    | UNARY_NOT
    | UNARY_INVERT
    | BINARY_MATRIX_MULTIPLY
    | INPLACE_MATRIX_MULTIPLY
    | BINARY_POWER
    | BINARY_MULTIPLY
    | BINARY_MODULO
    | BINARY_ADD
    | BINARY_SUBTRACT
    | BINARY_SUBSCR
    | BINARY_FLOOR_DIVIDE
    | BINARY_TRUE_DIVIDE
    | INPLACE_FLOOR_DIVIDE
    | INPLACE_TRUE_DIVIDE
    | GET_AITER
    | GET_ANEXT
    | BEFORE_ASYNC_WITH
    | BEGIN_FINALLY
    | END_ASYNC_FOR
    | INPLACE_ADD
    | INPLACE_SUBTRACT
    | INPLACE_MULTIPLY
    | INPLACE_MODULO
    | STORE_SUBSCR
    | BINARY_AND
    | BINARY_XOR
    | BINARY_OR
    | GET_ITER
    | GET_YIELD_FROM_ITER
    | PRINT_EXPR
    | LOAD_BUILD_CLASS
    | WITH_CLEANUP_START
    | WITH_CLEANUP_FINISH
    | RETURN_VALUE
    | IMPORT_STAR
    | SETUP_ANNOTATIONS
    | YIELD_VALUE
    | POP_BLOCK
    | END_FINALLY
    | POP_EXCEPT
    | STORE_NAME
    | DELETE_NAME
    | UNPACK_SEQUENCE
    | FOR_ITER
    | UNPACK_EX
    | STORE_ATTR
    | STORE_GLOBAL
    | LOAD_CONST
    | LOAD_NAME
    | BUILD_TUPLE
    | BUILD_LIST
    | BUILD_SET
    | BUILD_MAP
    | LOAD_ATTR
    | COMPARE_OP
    | IMPORT_NAME
    | IMPORT_FROM
    | JUMP_FORWARD
    | JUMP_IF_FALSE_OR_POP
    | JUMP_IF_TRUE_OR_POP
    | JUMP_ABSOLUTE
    | POP_JUMP_IF_FALSE
    | POP_JUMP_IF_TRUE
    | LOAD_GLOBAL
    | SETUP_FINALLY
    | LOAD_FAST
    | STORE_FAST
    | DELETE_FAST
    | RAISE_VARARGS
    | CALL_FUNCTION
    | MAKE_FUNCTION
    | LOAD_CLOSURE
    | LOAD_DEREF
    | STORE_DEREF
    | CALL_FUNCTION_KW
    | CALL_FUNCTION_EX
    | SETUP_WITH
    | EXTENDED_ARG
    | BUILD_CONST_KEY_MAP
    | BUILD_STRING
    | BUILD_TUPLE_UNPACK_WITH_CALL
    | LOAD_METHOD
    | CALL_METHOD
    | CALL_FINALLY
    | POP_FINALLY

  /** The byte a mnemonic stands for: its explicit discriminant. */
  function Encode(op: Opcode): byte {
    match op
    case ERG_POP_NTH => 196
    case ERG_PEEK_NTH => 197
    case ERG_INC => 198
    case ERG_DEC => 199
    case ERG_LOAD_FAST_IMMUT => 200
    case ERG_STORE_FAST_IMMUT => 201
    case ERG_MOVE_FAST => 202
    case ERG_CLONE_FAST => 203
    case ERG_COPY_FAST => 204
    case ERG_REF_FAST => 205
    case ERG_REF_MUT_FAST => 206
    case ERG_MOVE_OUTER => 207
    case ERG_CLONE_OUTER => 208
    case ERG_COPY_OUTER => 209
    case ERG_REF_OUTER => 210
    case ERG_REF_MUT_OUTER => 211
    case ERG_LESS_THAN => 212
    case ERG_LESS_EQUAL => 213
    case ERG_EQUAL => 214
    case ERG_NOT_EQUAL => 215
    case ERG_MAKE_SLOT => 216
    case ERG_MAKE_TYPE => 217
    case ERG_MAKE_PURE_FUNCTION => 218
    case ERG_CALL_PURE_FUNCTION => 219
    case ERG_LOAD_EMPTY_SLOT => 242
    case ERG_LOAD_EMPTY_STR => 243
    case ERG_LOAD_1_NAT => 244
    case ERG_LOAD_1_INT => 245
    case ERG_LOAD_1_REAL => 246
    case ERG_LOAD_NONE => 247
    case ERG_MUTATE => 248
    case ERG_STORE_SUBSCR => 249
    case ERG_BINARY_SUBSCR => 251
    case ERG_BINARY_RANGE => 252
    case ERG_TRY_BINARY_DIVIDE => 253
    case ERG_BINARY_TRUE_DIVIDE => 254
    case NOT_IMPLEMENTED => 255
    case POP_TOP => 1
    case ROT_TWO => 2
    case ROT_THREE => 3
    case DUP_TOP => 4
    case DUP_TOP2 => 5
    case ROT_FOUR => 6
    case NOP => 9
    case UNARY_POSITIVE => 10
    case UNARY_NEGATIVE => 11
    case UNARY_NOT => 12
    case UNARY_INVERT => 15
    case BINARY_MATRIX_MULTIPLY => 16
    case INPLACE_MATRIX_MULTIPLY => 17
    case BINARY_POWER => 19
    case BINARY_MULTIPLY => 20
    case BINARY_MODULO => 22
    case BINARY_ADD => 23
    case BINARY_SUBTRACT => 24
    case BINARY_SUBSCR => 25
    case BINARY_FLOOR_DIVIDE => 26
    case BINARY_TRUE_DIVIDE => 27
    case INPLACE_FLOOR_DIVIDE => 28
    case INPLACE_TRUE_DIVIDE => 29
    case GET_AITER => 50
    case GET_ANEXT => 51
    case BEFORE_ASYNC_WITH => 52
    case BEGIN_FINALLY => 53
    case END_ASYNC_FOR => 54
    case INPLACE_ADD => 55
    case INPLACE_SUBTRACT => 56
    case INPLACE_MULTIPLY => 57
    case INPLACE_MODULO => 59
    case STORE_SUBSCR => 60
    case BINARY_AND => 64
    case BINARY_XOR => 65
    case BINARY_OR => 66
    case GET_ITER => 68
    case GET_YIELD_FROM_ITER => 69
    case PRINT_EXPR => 70
    case LOAD_BUILD_CLASS => 71
    case WITH_CLEANUP_START => 81
    case WITH_CLEANUP_FINISH => 82
    case RETURN_VALUE => 83
    case IMPORT_STAR => 84
    case SETUP_ANNOTATIONS => 85
    case YIELD_VALUE => 86
    case POP_BLOCK => 87
    case END_FINALLY => 88
    case POP_EXCEPT => 89
    case STORE_NAME => 90
    case DELETE_NAME => 91
    case UNPACK_SEQUENCE => 92
    case FOR_ITER => 93
    case UNPACK_EX => 94
    case STORE_ATTR => 95
    case STORE_GLOBAL => 97
    case LOAD_CONST => 100
    case LOAD_NAME => 101
    case BUILD_TUPLE => 102
    case BUILD_LIST => 103
    case BUILD_SET => 104
    case BUILD_MAP => 105
    case LOAD_ATTR => 106
    case COMPARE_OP => 107
    case IMPORT_NAME => 108
    case IMPORT_FROM => 109
    case JUMP_FORWARD => 110
    case JUMP_IF_FALSE_OR_POP => 111
    case JUMP_IF_TRUE_OR_POP => 112
    case JUMP_ABSOLUTE => 113
    case POP_JUMP_IF_FALSE => 114
    case POP_JUMP_IF_TRUE => 115
    case LOAD_GLOBAL => 116
    case SETUP_FINALLY => 122
    case LOAD_FAST => 124
    case STORE_FAST => 125
    case DELETE_FAST => 126
    case RAISE_VARARGS => 130
    case CALL_FUNCTION => 131
    case MAKE_FUNCTION => 132
    case LOAD_CLOSURE => 135
    case LOAD_DEREF => 136
    case STORE_DEREF => 137
    case CALL_FUNCTION_KW => 141
    case CALL_FUNCTION_EX => 142
    case SETUP_WITH => 143
    case EXTENDED_ARG => 144
    case BUILD_CONST_KEY_MAP => 156
    case BUILD_STRING => 157
    case BUILD_TUPLE_UNPACK_WITH_CALL => 158
    case LOAD_METHOD => 160
    case CALL_METHOD => 161
    case CALL_FINALLY => 162
    case POP_FINALLY => 163
  }

  /** The mnemonic a byte stands for, if the table lists one. The byte
      range is read sixteen values at a time. */
  function Decode(b: byte): Option<Opcode> {
    if b < 16 then DecodeRow0(b)
    else if b < 32 then DecodeRow1(b)
    else if b < 48 then None
    else if b < 64 then DecodeRow3(b)
    else if b < 80 then DecodeRow4(b)
    else if b < 96 then DecodeRow5(b)
    else if b < 112 then DecodeRow6(b)
    else if b < 128 then DecodeRow7(b)
    else if b < 144 then DecodeRow8(b)
    else if b < 160 then DecodeRow9(b)
    else if b < 176 then DecodeRowA(b)
    else if b < 192 then None
    else if b < 208 then DecodeRowC(b)
    else if b < 224 then DecodeRowD(b)
    else if b < 240 then None
    else DecodeRowF(b)
  }

  /** Bytes 0x00 to 0x0F. */
  function DecodeRow0(b: byte): Option<Opcode> {
    match b
    case 1 => Some(POP_TOP)
    case 2 => Some(ROT_TWO)
    case 3 => Some(ROT_THREE)
    case 4 => Some(DUP_TOP)
    case 5 => Some(DUP_TOP2)
    case 6 => Some(ROT_FOUR)
    case 9 => Some(NOP)
    case 10 => Some(UNARY_POSITIVE)
    case 11 => Some(UNARY_NEGATIVE)
    case 12 => Some(UNARY_NOT)
    case 15 => Some(UNARY_INVERT)
    case _ => None
  }

  /** Bytes 0x10 to 0x1F. */
  function DecodeRow1(b: byte): Option<Opcode> {
    match b
    case 16 => Some(BINARY_MATRIX_MULTIPLY)
    case 17 => Some(INPLACE_MATRIX_MULTIPLY)
    case 19 => Some(BINARY_POWER)
    case 20 => Some(BINARY_MULTIPLY)
    case 22 => Some(BINARY_MODULO)
    case 23 => Some(BINARY_ADD)
    case 24 => Some(BINARY_SUBTRACT)
    case 25 => Some(BINARY_SUBSCR)
    case 26 => Some(BINARY_FLOOR_DIVIDE)
    case 27 => Some(BINARY_TRUE_DIVIDE)
    case 28 => Some(INPLACE_FLOOR_DIVIDE)
    case 29 => Some(INPLACE_TRUE_DIVIDE)
    case _ => None
  }

  /** Bytes 0x30 to 0x3F. */
  function DecodeRow3(b: byte): Option<Opcode> {
    match b
    case 50 => Some(GET_AITER)
    case 51 => Some(GET_ANEXT)
    case 52 => Some(BEFORE_ASYNC_WITH)
    case 53 => Some(BEGIN_FINALLY)
    case 54 => Some(END_ASYNC_FOR)
    case 55 => Some(INPLACE_ADD)
    case 56 => Some(INPLACE_SUBTRACT)
    case 57 => Some(INPLACE_MULTIPLY)
    case 59 => Some(INPLACE_MODULO)
    case 60 => Some(STORE_SUBSCR)
    case _ => None
  }

  /** Bytes 0x40 to 0x4F. */
  function DecodeRow4(b: byte): Option<Opcode> {
    match b
    case 64 => Some(BINARY_AND)
    case 65 => Some(BINARY_XOR)
    case 66 => Some(BINARY_OR)
    case 68 => Some(GET_ITER)
    case 69 => Some(GET_YIELD_FROM_ITER)
    case 70 => Some(PRINT_EXPR)
    case 71 => Some(LOAD_BUILD_CLASS)
    case _ => None
  }

  /** Bytes 0x50 to 0x5F. */
  function DecodeRow5(b: byte): Option<Opcode> {
    match b
    case 81 => Some(WITH_CLEANUP_START)
    case 82 => Some(WITH_CLEANUP_FINISH)
    case 83 => Some(RETURN_VALUE)
    case 84 => Some(IMPORT_STAR)
    case 85 => Some(SETUP_ANNOTATIONS)
    case 86 => Some(YIELD_VALUE)
    case 87 => Some(POP_BLOCK)
    case 88 => Some(END_FINALLY)
    case 89 => Some(POP_EXCEPT)
    case 90 => Some(STORE_NAME)
    case 91 => Some(DELETE_NAME)
    case 92 => Some(UNPACK_SEQUENCE)
    case 93 => Some(FOR_ITER)
    case 94 => Some(UNPACK_EX)
    case 95 => Some(STORE_ATTR)
    case _ => None
  }

  /** Bytes 0x60 to 0x6F. */
  function DecodeRow6(b: byte): Option<Opcode> {
    match b
    case 97 => Some(STORE_GLOBAL)
    case 100 => Some(LOAD_CONST)
    case 101 => Some(LOAD_NAME)
    case 102 => Some(BUILD_TUPLE)
    case 103 => Some(BUILD_LIST)
    case 104 => Some(BUILD_SET)
    case 105 => Some(BUILD_MAP)
    case 106 => Some(LOAD_ATTR)
    case 107 => Some(COMPARE_OP)
    case 108 => Some(IMPORT_NAME)
    case 109 => Some(IMPORT_FROM)
    case 110 => Some(JUMP_FORWARD)
    case 111 => Some(JUMP_IF_FALSE_OR_POP)
    case _ => None
  }

  /** Bytes 0x70 to 0x7F. */
  function DecodeRow7(b: byte): Option<Opcode> {
    match b
    case 112 => Some(JUMP_IF_TRUE_OR_POP)
    case 113 => Some(JUMP_ABSOLUTE)
    case 114 => Some(POP_JUMP_IF_FALSE)
    case 115 => Some(POP_JUMP_IF_TRUE)
    case 116 => Some(LOAD_GLOBAL)
    case 122 => Some(SETUP_FINALLY)
    case 124 => Some(LOAD_FAST)
    case 125 => Some(STORE_FAST)
    case 126 => Some(DELETE_FAST)
    case _ => None
  }

  /** Bytes 0x80 to 0x8F. */
  function DecodeRow8(b: byte): Option<Opcode> {
    match b
    case 130 => Some(RAISE_VARARGS)
    case 131 => Some(CALL_FUNCTION)
    case 132 => Some(MAKE_FUNCTION)
    case 135 => Some(LOAD_CLOSURE)
    case 136 => Some(LOAD_DEREF)
    case 137 => Some(STORE_DEREF)
    case 141 => Some(CALL_FUNCTION_KW)
    case 142 => Some(CALL_FUNCTION_EX)
    case 143 => Some(SETUP_WITH)
    case _ => None
  }

  /** Bytes 0x90 to 0x9F. */
  function DecodeRow9(b: byte): Option<Opcode> {
    match b
    case 144 => Some(EXTENDED_ARG)
    case 156 => Some(BUILD_CONST_KEY_MAP)
    case 157 => Some(BUILD_STRING)
    case 158 => Some(BUILD_TUPLE_UNPACK_WITH_CALL)
    case _ => None
  }

  /** Bytes 0xA0 to 0xAF. */
  function DecodeRowA(b: byte): Option<Opcode> {
    match b
    case 160 => Some(LOAD_METHOD)
    case 161 => Some(CALL_METHOD)
    case 162 => Some(CALL_FINALLY)
    case 163 => Some(POP_FINALLY)
    case _ => None
  }

  /** Bytes 0xC0 to 0xCF. */
  function DecodeRowC(b: byte): Option<Opcode> {
    match b
    case 196 => Some(ERG_POP_NTH)
    case 197 => Some(ERG_PEEK_NTH)
    case 198 => Some(ERG_INC)
    case 199 => Some(ERG_DEC)
    case 200 => Some(ERG_LOAD_FAST_IMMUT)
    case 201 => Some(ERG_STORE_FAST_IMMUT)
    case 202 => Some(ERG_MOVE_FAST)
    case 203 => Some(ERG_CLONE_FAST)
    case 204 => Some(ERG_COPY_FAST)
    case 205 => Some(ERG_REF_FAST)
    case 206 => Some(ERG_REF_MUT_FAST)
    case 207 => Some(ERG_MOVE_OUTER)
    case _ => None
  }

  /** Bytes 0xD0 to 0xDF. */
  function DecodeRowD(b: byte): Option<Opcode> {
    match b
    case 208 => Some(ERG_CLONE_OUTER)
    case 209 => Some(ERG_COPY_OUTER)
    case 210 => Some(ERG_REF_OUTER)
    case 211 => Some(ERG_REF_MUT_OUTER)
    case 212 => Some(ERG_LESS_THAN)
    case 213 => Some(ERG_LESS_EQUAL)
    case 214 => Some(ERG_EQUAL)
    case 215 => Some(ERG_NOT_EQUAL)
    case 216 => Some(ERG_MAKE_SLOT)
    case 217 => Some(ERG_MAKE_TYPE)
    case 218 => Some(ERG_MAKE_PURE_FUNCTION)
    case 219 => Some(ERG_CALL_PURE_FUNCTION)
    case _ => None
  }

  /** Bytes 0xF0 to 0xFF. */
  function DecodeRowF(b: byte): Option<Opcode> {
    match b
    case 242 => Some(ERG_LOAD_EMPTY_SLOT)
    case 243 => Some(ERG_LOAD_EMPTY_STR)
    case 244 => Some(ERG_LOAD_1_NAT)
    case 245 => Some(ERG_LOAD_1_INT)
    case 246 => Some(ERG_LOAD_1_REAL)
    case 247 => Some(ERG_LOAD_NONE)
    case 248 => Some(ERG_MUTATE)
    case 249 => Some(ERG_STORE_SUBSCR)
    case 251 => Some(ERG_BINARY_SUBSCR)
    case 252 => Some(ERG_BINARY_RANGE)
    case 253 => Some(ERG_TRY_BINARY_DIVIDE)
    case 254 => Some(ERG_BINARY_TRUE_DIVIDE)
    case 255 => Some(NOT_IMPLEMENTED)
    case _ => None
  }

  /** Erg's own opcodes: the mnemonics the table prefixes with `ERG_`. */
  predicate IsErgSpecific(op: Opcode) {
    || op.ERG_POP_NTH?
    || op.ERG_PEEK_NTH?
    || op.ERG_INC?
    || op.ERG_DEC?
    || op.ERG_LOAD_FAST_IMMUT?
    || op.ERG_STORE_FAST_IMMUT?
    || op.ERG_MOVE_FAST?
    || op.ERG_CLONE_FAST?
    || op.ERG_COPY_FAST?
    || op.ERG_REF_FAST?
    || op.ERG_REF_MUT_FAST?
    || op.ERG_MOVE_OUTER?
    || op.ERG_CLONE_OUTER?
    || op.ERG_COPY_OUTER?
    || op.ERG_REF_OUTER?
    || op.ERG_REF_MUT_OUTER?
    || op.ERG_LESS_THAN?
    || op.ERG_LESS_EQUAL?
    || op.ERG_EQUAL?
    || op.ERG_NOT_EQUAL?
    || op.ERG_MAKE_SLOT?
    || op.ERG_MAKE_TYPE?
    || op.ERG_MAKE_PURE_FUNCTION?
    || op.ERG_CALL_PURE_FUNCTION?
    || op.ERG_LOAD_EMPTY_SLOT?
    || op.ERG_LOAD_EMPTY_STR?
    || op.ERG_LOAD_1_NAT?
    || op.ERG_LOAD_1_INT?
    || op.ERG_LOAD_1_REAL?
    || op.ERG_LOAD_NONE?
    || op.ERG_MUTATE?
    || op.ERG_STORE_SUBSCR?
    || op.ERG_BINARY_SUBSCR?
    || op.ERG_BINARY_RANGE?
    || op.ERG_TRY_BINARY_DIVIDE?
    || op.ERG_BINARY_TRUE_DIVIDE?
  }

  /** Opcodes numbered from `HAVE_ARGUMENT` up to 219 take an argument;
      the ones below 90, and Erg's opcodes from 220 upwards, take none. */
  predicate TakesArg(op: Opcode) {
    HAVE_ARGUMENT <= Encode(op) as int < FIRST_ERG_NO_ARG
  }

  /** Decoding the byte of any mnemonic gives that mnemonic back. The
      proof goes through the table ten mnemonics at a time. */
  lemma DecodeEncode(op: Opcode)
    ensures Decode(Encode(op)) == Some(op)
  {
    if op.POP_TOP? || op.ROT_TWO? || op.ROT_THREE? || op.DUP_TOP? || op.DUP_TOP2?
       || op.ROT_FOUR? || op.NOP? || op.UNARY_POSITIVE? || op.UNARY_NEGATIVE?
       || op.UNARY_NOT? {
      DecodeEncodeGroup0(op);
    } else if op.UNARY_INVERT? || op.BINARY_MATRIX_MULTIPLY? || op.INPLACE_MATRIX_MULTIPLY?
              || op.BINARY_POWER? || op.BINARY_MULTIPLY? || op.BINARY_MODULO? || op.BINARY_ADD?
              || op.BINARY_SUBTRACT? || op.BINARY_SUBSCR? || op.BINARY_FLOOR_DIVIDE? {
      DecodeEncodeGroup1(op);
    } else if op.BINARY_TRUE_DIVIDE? || op.INPLACE_FLOOR_DIVIDE? || op.INPLACE_TRUE_DIVIDE?
              || op.GET_AITER? || op.GET_ANEXT? || op.BEFORE_ASYNC_WITH? || op.BEGIN_FINALLY?
              || op.END_ASYNC_FOR? || op.INPLACE_ADD? || op.INPLACE_SUBTRACT? {
      DecodeEncodeGroup2(op);
    } else if op.INPLACE_MULTIPLY? || op.INPLACE_MODULO? || op.STORE_SUBSCR? || op.BINARY_AND?
              || op.BINARY_XOR? || op.BINARY_OR? || op.GET_ITER? || op.GET_YIELD_FROM_ITER?
              || op.PRINT_EXPR? || op.LOAD_BUILD_CLASS? {
      DecodeEncodeGroup3(op);
    } else if op.WITH_CLEANUP_START? || op.WITH_CLEANUP_FINISH? || op.RETURN_VALUE?
              || op.IMPORT_STAR? || op.SETUP_ANNOTATIONS? || op.YIELD_VALUE? || op.POP_BLOCK?
              || op.END_FINALLY? || op.POP_EXCEPT? || op.STORE_NAME? {
      DecodeEncodeGroup4(op);
    } else if op.DELETE_NAME? || op.UNPACK_SEQUENCE? || op.FOR_ITER? || op.UNPACK_EX?
              || op.STORE_ATTR? || op.STORE_GLOBAL? || op.LOAD_CONST? || op.LOAD_NAME?
              || op.BUILD_TUPLE? || op.BUILD_LIST? {
      DecodeEncodeGroup5(op);
    } else if op.BUILD_SET? || op.BUILD_MAP? || op.LOAD_ATTR? || op.COMPARE_OP?
              || op.IMPORT_NAME? || op.IMPORT_FROM? || op.JUMP_FORWARD?
              || op.JUMP_IF_FALSE_OR_POP? || op.JUMP_IF_TRUE_OR_POP? || op.JUMP_ABSOLUTE? {
      DecodeEncodeGroup6(op);
    } else if op.POP_JUMP_IF_FALSE? || op.POP_JUMP_IF_TRUE? || op.LOAD_GLOBAL?
              || op.SETUP_FINALLY? || op.LOAD_FAST? || op.STORE_FAST? || op.DELETE_FAST?
              || op.RAISE_VARARGS? || op.CALL_FUNCTION? || op.MAKE_FUNCTION? {
      DecodeEncodeGroup7(op);
    } else if op.LOAD_CLOSURE? || op.LOAD_DEREF? || op.STORE_DEREF? || op.CALL_FUNCTION_KW?
              || op.CALL_FUNCTION_EX? || op.SETUP_WITH? || op.EXTENDED_ARG?
              || op.BUILD_CONST_KEY_MAP? || op.BUILD_STRING? || op.BUILD_TUPLE_UNPACK_WITH_CALL? {
      DecodeEncodeGroup8(op);
    } else if op.LOAD_METHOD? || op.CALL_METHOD? || op.CALL_FINALLY? || op.POP_FINALLY?
              || op.ERG_POP_NTH? || op.ERG_PEEK_NTH? || op.ERG_INC? || op.ERG_DEC?
              || op.ERG_LOAD_FAST_IMMUT? || op.ERG_STORE_FAST_IMMUT? {
      DecodeEncodeGroup9(op);
    } else if op.ERG_MOVE_FAST? || op.ERG_CLONE_FAST? || op.ERG_COPY_FAST? || op.ERG_REF_FAST?
              || op.ERG_REF_MUT_FAST? || op.ERG_MOVE_OUTER? || op.ERG_CLONE_OUTER?
              || op.ERG_COPY_OUTER? || op.ERG_REF_OUTER? || op.ERG_REF_MUT_OUTER? {
      DecodeEncodeGroup10(op);
    } else if op.ERG_LESS_THAN? || op.ERG_LESS_EQUAL? || op.ERG_EQUAL? || op.ERG_NOT_EQUAL?
              || op.ERG_MAKE_SLOT? || op.ERG_MAKE_TYPE? || op.ERG_MAKE_PURE_FUNCTION?
              || op.ERG_CALL_PURE_FUNCTION? || op.ERG_LOAD_EMPTY_SLOT? || op.ERG_LOAD_EMPTY_STR? {
      DecodeEncodeGroup11(op);
    } else if op.ERG_LOAD_1_NAT? || op.ERG_LOAD_1_INT? || op.ERG_LOAD_1_REAL?
              || op.ERG_LOAD_NONE? || op.ERG_MUTATE? || op.ERG_STORE_SUBSCR?
              || op.ERG_BINARY_SUBSCR? || op.ERG_BINARY_RANGE? || op.ERG_TRY_BINARY_DIVIDE?
              || op.ERG_BINARY_TRUE_DIVIDE? {
      DecodeEncodeGroup12(op);
    } else {
      DecodeEncodeGroup13(op);
    }
  }

  /** The round trip for one stretch of the table, mnemonic by mnemonic. */
  lemma DecodeEncodeGroup0(op: Opcode)
    requires op.POP_TOP? || op.ROT_TWO? || op.ROT_THREE? || op.DUP_TOP? || op.DUP_TOP2?
             || op.ROT_FOUR? || op.NOP? || op.UNARY_POSITIVE? || op.UNARY_NEGATIVE?
             || op.UNARY_NOT?
    ensures Decode(Encode(op)) == Some(op)
  {
    match op
    case POP_TOP => assert Decode(1) == Some(POP_TOP);
    case ROT_TWO => assert Decode(2) == Some(ROT_TWO);
    case ROT_THREE => assert Decode(3) == Some(ROT_THREE);
    case DUP_TOP => assert Decode(4) == Some(DUP_TOP);
    case DUP_TOP2 => assert Decode(5) == Some(DUP_TOP2);
    case ROT_FOUR => assert Decode(6) == Some(ROT_FOUR);
    case NOP => assert Decode(9) == Some(NOP);
    case UNARY_POSITIVE => assert Decode(10) == Some(UNARY_POSITIVE);
    case UNARY_NEGATIVE => assert Decode(11) == Some(UNARY_NEGATIVE);
    case UNARY_NOT => assert Decode(12) == Some(UNARY_NOT);
    case _ => assert false;
  }

  lemma DecodeEncodeGroup1(op: Opcode)
    requires op.UNARY_INVERT? || op.BINARY_MATRIX_MULTIPLY? || op.INPLACE_MATRIX_MULTIPLY?
             || op.BINARY_POWER? || op.BINARY_MULTIPLY? || op.BINARY_MODULO? || op.BINARY_ADD?
             || op.BINARY_SUBTRACT? || op.BINARY_SUBSCR? || op.BINARY_FLOOR_DIVIDE?
    ensures Decode(Encode(op)) == Some(op)
  {
    match op
    case UNARY_INVERT => assert Decode(15) == Some(UNARY_INVERT);
    case BINARY_MATRIX_MULTIPLY => assert Decode(16) == Some(BINARY_MATRIX_MULTIPLY);
    case INPLACE_MATRIX_MULTIPLY => assert Decode(17) == Some(INPLACE_MATRIX_MULTIPLY);
    case BINARY_POWER => assert Decode(19) == Some(BINARY_POWER);
    case BINARY_MULTIPLY => assert Decode(20) == Some(BINARY_MULTIPLY);
    case BINARY_MODULO => assert Decode(22) == Some(BINARY_MODULO);
    case BINARY_ADD => assert Decode(23) == Some(BINARY_ADD);
    case BINARY_SUBTRACT => assert Decode(24) == Some(BINARY_SUBTRACT);
    case BINARY_SUBSCR => assert Decode(25) == Some(BINARY_SUBSCR);
    case BINARY_FLOOR_DIVIDE => assert Decode(26) == Some(BINARY_FLOOR_DIVIDE);
    case _ => assert false;
  }

  lemma DecodeEncodeGroup2(op: Opcode)
    requires op.BINARY_TRUE_DIVIDE? || op.INPLACE_FLOOR_DIVIDE? || op.INPLACE_TRUE_DIVIDE?
             || op.GET_AITER? || op.GET_ANEXT? || op.BEFORE_ASYNC_WITH? || op.BEGIN_FINALLY?
             || op.END_ASYNC_FOR? || op.INPLACE_ADD? || op.INPLACE_SUBTRACT?
    ensures Decode(Encode(op)) == Some(op)
  {
    match op
    case BINARY_TRUE_DIVIDE => assert Decode(27) == Some(BINARY_TRUE_DIVIDE);
    case INPLACE_FLOOR_DIVIDE => assert Decode(28) == Some(INPLACE_FLOOR_DIVIDE);
    case INPLACE_TRUE_DIVIDE => assert Decode(29) == Some(INPLACE_TRUE_DIVIDE);
    case GET_AITER => assert Decode(50) == Some(GET_AITER);
    case GET_ANEXT => assert Decode(51) == Some(GET_ANEXT);
    case BEFORE_ASYNC_WITH => assert Decode(52) == Some(BEFORE_ASYNC_WITH);
    case BEGIN_FINALLY => assert Decode(53) == Some(BEGIN_FINALLY);
    case END_ASYNC_FOR => assert Decode(54) == Some(END_ASYNC_FOR);
    case INPLACE_ADD => assert Decode(55) == Some(INPLACE_ADD);
    case INPLACE_SUBTRACT => assert Decode(56) == Some(INPLACE_SUBTRACT);
    case _ => assert false;
  }

  lemma DecodeEncodeGroup3(op: Opcode)
    requires op.INPLACE_MULTIPLY? || op.INPLACE_MODULO? || op.STORE_SUBSCR? || op.BINARY_AND?
             || op.BINARY_XOR? || op.BINARY_OR? || op.GET_ITER? || op.GET_YIELD_FROM_ITER?
             || op.PRINT_EXPR? || op.LOAD_BUILD_CLASS?
    ensures Decode(Encode(op)) == Some(op)
  {
    match op
    case INPLACE_MULTIPLY => assert Decode(57) == Some(INPLACE_MULTIPLY);
    case INPLACE_MODULO => assert Decode(59) == Some(INPLACE_MODULO);
    case STORE_SUBSCR => assert Decode(60) == Some(STORE_SUBSCR);
    case BINARY_AND => assert Decode(64) == Some(BINARY_AND);
    case BINARY_XOR => assert Decode(65) == Some(BINARY_XOR);
    case BINARY_OR => assert Decode(66) == Some(BINARY_OR);
    case GET_ITER => assert Decode(68) == Some(GET_ITER);
    case GET_YIELD_FROM_ITER => assert Decode(69) == Some(GET_YIELD_FROM_ITER);
    case PRINT_EXPR => assert Decode(70) == Some(PRINT_EXPR);
    case LOAD_BUILD_CLASS => assert Decode(71) == Some(LOAD_BUILD_CLASS);
    case _ => assert false;
  }

  lemma DecodeEncodeGroup4(op: Opcode)
    requires op.WITH_CLEANUP_START? || op.WITH_CLEANUP_FINISH? || op.RETURN_VALUE?
             || op.IMPORT_STAR? || op.SETUP_ANNOTATIONS? || op.YIELD_VALUE? || op.POP_BLOCK?
             || op.END_FINALLY? || op.POP_EXCEPT? || op.STORE_NAME?
    ensures Decode(Encode(op)) == Some(op)
  {
    match op
    case WITH_CLEANUP_START => assert Decode(81) == Some(WITH_CLEANUP_START);
    case WITH_CLEANUP_FINISH => assert Decode(82) == Some(WITH_CLEANUP_FINISH);
    case RETURN_VALUE => assert Decode(83) == Some(RETURN_VALUE);
    case IMPORT_STAR => assert Decode(84) == Some(IMPORT_STAR);
    case SETUP_ANNOTATIONS => assert Decode(85) == Some(SETUP_ANNOTATIONS);
    case YIELD_VALUE => assert Decode(86) == Some(YIELD_VALUE);
    case POP_BLOCK => assert Decode(87) == Some(POP_BLOCK);
    case END_FINALLY => assert Decode(88) == Some(END_FINALLY);
    case POP_EXCEPT => assert Decode(89) == Some(POP_EXCEPT);
    case STORE_NAME => assert Decode(90) == Some(STORE_NAME);
    case _ => assert false;
  }

  lemma DecodeEncodeGroup5(op: Opcode)
    requires op.DELETE_NAME? || op.UNPACK_SEQUENCE? || op.FOR_ITER? || op.UNPACK_EX?
             || op.STORE_ATTR? || op.STORE_GLOBAL? || op.LOAD_CONST? || op.LOAD_NAME?
             || op.BUILD_TUPLE? || op.BUILD_LIST?
    ensures Decode(Encode(op)) == Some(op)
  {
    match op
    case DELETE_NAME => assert Decode(91) == Some(DELETE_NAME);
    case UNPACK_SEQUENCE => assert Decode(92) == Some(UNPACK_SEQUENCE);
    case FOR_ITER => assert Decode(93) == Some(FOR_ITER);
    case UNPACK_EX => assert Decode(94) == Some(UNPACK_EX);
    case STORE_ATTR => assert Decode(95) == Some(STORE_ATTR);
    case STORE_GLOBAL => assert Decode(97) == Some(STORE_GLOBAL);
    case LOAD_CONST => assert Decode(100) == Some(LOAD_CONST);
    case LOAD_NAME => assert Decode(101) == Some(LOAD_NAME);
    case BUILD_TUPLE => assert Decode(102) == Some(BUILD_TUPLE);
    case BUILD_LIST => assert Decode(103) == Some(BUILD_LIST);
    case _ => assert false;
  }

  lemma DecodeEncodeGroup6(op: Opcode)
    requires op.BUILD_SET? || op.BUILD_MAP? || op.LOAD_ATTR? || op.COMPARE_OP?
             || op.IMPORT_NAME? || op.IMPORT_FROM? || op.JUMP_FORWARD?
             || op.JUMP_IF_FALSE_OR_POP? || op.JUMP_IF_TRUE_OR_POP? || op.JUMP_ABSOLUTE?
    ensures Decode(Encode(op)) == Some(op)
  {
    match op
    case BUILD_SET => assert Decode(104) == Some(BUILD_SET);
    case BUILD_MAP => assert Decode(105) == Some(BUILD_MAP);
    case LOAD_ATTR => assert Decode(106) == Some(LOAD_ATTR);
    case COMPARE_OP => assert Decode(107) == Some(COMPARE_OP);
    case IMPORT_NAME => assert Decode(108) == Some(IMPORT_NAME);
    case IMPORT_FROM => assert Decode(109) == Some(IMPORT_FROM);
    case JUMP_FORWARD => assert Decode(110) == Some(JUMP_FORWARD);
    case JUMP_IF_FALSE_OR_POP => assert Decode(111) == Some(JUMP_IF_FALSE_OR_POP);
    case JUMP_IF_TRUE_OR_POP => assert Decode(112) == Some(JUMP_IF_TRUE_OR_POP);
    case JUMP_ABSOLUTE => assert Decode(113) == Some(JUMP_ABSOLUTE);
    case _ => assert false;
  }

  lemma DecodeEncodeGroup7(op: Opcode)
    requires op.POP_JUMP_IF_FALSE? || op.POP_JUMP_IF_TRUE? || op.LOAD_GLOBAL?
             || op.SETUP_FINALLY? || op.LOAD_FAST? || op.STORE_FAST? || op.DELETE_FAST?
             || op.RAISE_VARARGS? || op.CALL_FUNCTION? || op.MAKE_FUNCTION?
    ensures Decode(Encode(op)) == Some(op)
  {
    match op
    case POP_JUMP_IF_FALSE => assert Decode(114) == Some(POP_JUMP_IF_FALSE);
    case POP_JUMP_IF_TRUE => assert Decode(115) == Some(POP_JUMP_IF_TRUE);
    case LOAD_GLOBAL => assert Decode(116) == Some(LOAD_GLOBAL);
    case SETUP_FINALLY => assert Decode(122) == Some(SETUP_FINALLY);
    case LOAD_FAST => assert Decode(124) == Some(LOAD_FAST);
    case STORE_FAST => assert Decode(125) == Some(STORE_FAST);
    case DELETE_FAST => assert Decode(126) == Some(DELETE_FAST);
    case RAISE_VARARGS => assert Decode(130) == Some(RAISE_VARARGS);
    case CALL_FUNCTION => assert Decode(131) == Some(CALL_FUNCTION);
    case MAKE_FUNCTION => assert Decode(132) == Some(MAKE_FUNCTION);
    case _ => assert false;
  }

  lemma DecodeEncodeGroup8(op: Opcode)
    requires op.LOAD_CLOSURE? || op.LOAD_DEREF? || op.STORE_DEREF? || op.CALL_FUNCTION_KW?
             || op.CALL_FUNCTION_EX? || op.SETUP_WITH? || op.EXTENDED_ARG?
             || op.BUILD_CONST_KEY_MAP? || op.BUILD_STRING? || op.BUILD_TUPLE_UNPACK_WITH_CALL?
    ensures Decode(Encode(op)) == Some(op)
  {
    match op
    case LOAD_CLOSURE => assert Decode(135) == Some(LOAD_CLOSURE);
    case LOAD_DEREF => assert Decode(136) == Some(LOAD_DEREF);
    case STORE_DEREF => assert Decode(137) == Some(STORE_DEREF);
    case CALL_FUNCTION_KW => assert Decode(141) == Some(CALL_FUNCTION_KW);
    case CALL_FUNCTION_EX => assert Decode(142) == Some(CALL_FUNCTION_EX);
    case SETUP_WITH => assert Decode(143) == Some(SETUP_WITH);
    case EXTENDED_ARG => assert Decode(144) == Some(EXTENDED_ARG);
    case BUILD_CONST_KEY_MAP => assert Decode(156) == Some(BUILD_CONST_KEY_MAP);
    case BUILD_STRING => assert Decode(157) == Some(BUILD_STRING);
    case BUILD_TUPLE_UNPACK_WITH_CALL => assert Decode(158) == Some(BUILD_TUPLE_UNPACK_WITH_CALL);
    case _ => assert false;
  }

  lemma DecodeEncodeGroup9(op: Opcode)
    requires op.LOAD_METHOD? || op.CALL_METHOD? || op.CALL_FINALLY? || op.POP_FINALLY?
             || op.ERG_POP_NTH? || op.ERG_PEEK_NTH? || op.ERG_INC? || op.ERG_DEC?
             || op.ERG_LOAD_FAST_IMMUT? || op.ERG_STORE_FAST_IMMUT?
    ensures Decode(Encode(op)) == Some(op)
  {
    match op
    case LOAD_METHOD => assert Decode(160) == Some(LOAD_METHOD);
    case CALL_METHOD => assert Decode(161) == Some(CALL_METHOD);
    case CALL_FINALLY => assert Decode(162) == Some(CALL_FINALLY);
    case POP_FINALLY => assert Decode(163) == Some(POP_FINALLY);
    case ERG_POP_NTH => assert Decode(196) == Some(ERG_POP_NTH);
    case ERG_PEEK_NTH => assert Decode(197) == Some(ERG_PEEK_NTH);
    case ERG_INC => assert Decode(198) == Some(ERG_INC);
    case ERG_DEC => assert Decode(199) == Some(ERG_DEC);
    case ERG_LOAD_FAST_IMMUT => assert Decode(200) == Some(ERG_LOAD_FAST_IMMUT);
    case ERG_STORE_FAST_IMMUT => assert Decode(201) == Some(ERG_STORE_FAST_IMMUT);
    case _ => assert false;
  }

  lemma DecodeEncodeGroup10(op: Opcode)
    requires op.ERG_MOVE_FAST? || op.ERG_CLONE_FAST? || op.ERG_COPY_FAST? || op.ERG_REF_FAST?
             || op.ERG_REF_MUT_FAST? || op.ERG_MOVE_OUTER? || op.ERG_CLONE_OUTER?
             || op.ERG_COPY_OUTER? || op.ERG_REF_OUTER? || op.ERG_REF_MUT_OUTER?
    ensures Decode(Encode(op)) == Some(op)
  {
    match op
    case ERG_MOVE_FAST => assert Decode(202) == Some(ERG_MOVE_FAST);
    case ERG_CLONE_FAST => assert Decode(203) == Some(ERG_CLONE_FAST);
    case ERG_COPY_FAST => assert Decode(204) == Some(ERG_COPY_FAST);
    case ERG_REF_FAST => assert Decode(205) == Some(ERG_REF_FAST);
    case ERG_REF_MUT_FAST => assert Decode(206) == Some(ERG_REF_MUT_FAST);
    case ERG_MOVE_OUTER => assert Decode(207) == Some(ERG_MOVE_OUTER);
    case ERG_CLONE_OUTER => assert Decode(208) == Some(ERG_CLONE_OUTER);
    case ERG_COPY_OUTER => assert Decode(209) == Some(ERG_COPY_OUTER);
    case ERG_REF_OUTER => assert Decode(210) == Some(ERG_REF_OUTER);
    case ERG_REF_MUT_OUTER => assert Decode(211) == Some(ERG_REF_MUT_OUTER);
    case _ => assert false;
  }

  lemma DecodeEncodeGroup11(op: Opcode)
    requires op.ERG_LESS_THAN? || op.ERG_LESS_EQUAL? || op.ERG_EQUAL? || op.ERG_NOT_EQUAL?
             || op.ERG_MAKE_SLOT? || op.ERG_MAKE_TYPE? || op.ERG_MAKE_PURE_FUNCTION?
             || op.ERG_CALL_PURE_FUNCTION? || op.ERG_LOAD_EMPTY_SLOT? || op.ERG_LOAD_EMPTY_STR?
    ensures Decode(Encode(op)) == Some(op)
  {
    match op
    case ERG_LESS_THAN => assert Decode(212) == Some(ERG_LESS_THAN);
    case ERG_LESS_EQUAL => assert Decode(213) == Some(ERG_LESS_EQUAL);
    case ERG_EQUAL => assert Decode(214) == Some(ERG_EQUAL);
    case ERG_NOT_EQUAL => assert Decode(215) == Some(ERG_NOT_EQUAL);
    case ERG_MAKE_SLOT => assert Decode(216) == Some(ERG_MAKE_SLOT);
    case ERG_MAKE_TYPE => assert Decode(217) == Some(ERG_MAKE_TYPE);
    case ERG_MAKE_PURE_FUNCTION => assert Decode(218) == Some(ERG_MAKE_PURE_FUNCTION);
    case ERG_CALL_PURE_FUNCTION => assert Decode(219) == Some(ERG_CALL_PURE_FUNCTION);
    case ERG_LOAD_EMPTY_SLOT => assert Decode(242) == Some(ERG_LOAD_EMPTY_SLOT);
    case ERG_LOAD_EMPTY_STR => assert Decode(243) == Some(ERG_LOAD_EMPTY_STR);
    case _ => assert false;
  }

  lemma DecodeEncodeGroup12(op: Opcode)
    requires op.ERG_LOAD_1_NAT? || op.ERG_LOAD_1_INT? || op.ERG_LOAD_1_REAL?
             || op.ERG_LOAD_NONE? || op.ERG_MUTATE? || op.ERG_STORE_SUBSCR?
             || op.ERG_BINARY_SUBSCR? || op.ERG_BINARY_RANGE? || op.ERG_TRY_BINARY_DIVIDE?
             || op.ERG_BINARY_TRUE_DIVIDE?
    ensures Decode(Encode(op)) == Some(op)
  {
    match op
    case ERG_LOAD_1_NAT => assert Decode(244) == Some(ERG_LOAD_1_NAT);
    case ERG_LOAD_1_INT => assert Decode(245) == Some(ERG_LOAD_1_INT);
    case ERG_LOAD_1_REAL => assert Decode(246) == Some(ERG_LOAD_1_REAL);
    case ERG_LOAD_NONE => assert Decode(247) == Some(ERG_LOAD_NONE);
    case ERG_MUTATE => assert Decode(248) == Some(ERG_MUTATE);
    case ERG_STORE_SUBSCR => assert Decode(249) == Some(ERG_STORE_SUBSCR);
    case ERG_BINARY_SUBSCR => assert Decode(251) == Some(ERG_BINARY_SUBSCR);
    case ERG_BINARY_RANGE => assert Decode(252) == Some(ERG_BINARY_RANGE);
    case ERG_TRY_BINARY_DIVIDE => assert Decode(253) == Some(ERG_TRY_BINARY_DIVIDE);
    case ERG_BINARY_TRUE_DIVIDE => assert Decode(254) == Some(ERG_BINARY_TRUE_DIVIDE);
    case _ => assert false;
  }

  lemma DecodeEncodeGroup13(op: Opcode)
    requires op.NOT_IMPLEMENTED?
    ensures Decode(Encode(op)) == Some(op)
  {
    match op
    case NOT_IMPLEMENTED => assert Decode(255) == Some(NOT_IMPLEMENTED);
    case _ => assert false;
  }

  /** The discriminants are pairwise distinct, so encoding is injective. */
  lemma EncodeInjective(op1: Opcode, op2: Opcode)
    requires Encode(op1) == Encode(op2)
    ensures op1 == op2
  {
    DecodeEncode(op1);
    DecodeEncode(op2);
  }

  /** A byte that decodes to nothing is the discriminant of no mnemonic. */
  lemma DecodeNoneIsUnlisted(b: byte)
    requires Decode(b) == None
    ensures forall op :: Encode(op) != b
  {
    forall op ensures Encode(op) != b {
      DecodeEncode(op);
    }
  }

  /** No mnemonic is listed under two bytes. */
  lemma DecodeInjective(b: byte, c: byte)
    requires Decode(b).Some? && Decode(c) == Decode(b)
    ensures c == b
  {
    if b < 8 {
      DecodeInjectiveRow0Low(b, c);
    } else if b < 16 {
      DecodeInjectiveRow0High(b, c);
    } else if b < 24 {
      DecodeInjectiveRow1Low(b, c);
    } else if b < 32 {
      DecodeInjectiveRow1High(b, c);
    } else if b < 56 {
      DecodeInjectiveRow3Low(b, c);
    } else if b < 64 {
      DecodeInjectiveRow3High(b, c);
    } else if b < 72 {
      DecodeInjectiveRow4Low(b, c);
    } else if b < 88 {
      DecodeInjectiveRow5Low(b, c);
    } else if b < 96 {
      DecodeInjectiveRow5High(b, c);
    } else if b < 104 {
      DecodeInjectiveRow6Low(b, c);
    } else if b < 112 {
      DecodeInjectiveRow6High(b, c);
    } else if b < 120 {
      DecodeInjectiveRow7Low(b, c);
    } else if b < 128 {
      DecodeInjectiveRow7High(b, c);
    } else if b < 136 {
      DecodeInjectiveRow8Low(b, c);
    } else if b < 144 {
      DecodeInjectiveRow8High(b, c);
    } else if b < 152 {
      DecodeInjectiveRow9Low(b, c);
    } else if b < 160 {
      DecodeInjectiveRow9High(b, c);
    } else if b < 168 {
      DecodeInjectiveRowALow(b, c);
    } else if b < 200 {
      DecodeInjectiveRowCLow(b, c);
    } else if b < 208 {
      DecodeInjectiveRowCHigh(b, c);
    } else if b < 216 {
      DecodeInjectiveRowDLow(b, c);
    } else if b < 224 {
      DecodeInjectiveRowDHigh(b, c);
    } else if b < 248 {
      DecodeInjectiveRowFLow(b, c);
    } else {
      DecodeInjectiveRowFHigh(b, c);
    }
  }

  /** Encoding the mnemonic a byte decodes to gives that byte back. */
  lemma EncodeDecode(b: byte)
    requires Decode(b).Some?
    ensures Encode(Decode(b).value) == b
  {
    var op := Decode(b).value;
    DecodeEncode(op);
    DecodeInjective(b, Encode(op));
  }

  /** A byte that is the discriminant of no mnemonic decodes to nothing. */
  lemma AbsentDecodesToNothing(b: byte)
    requires forall op :: Encode(op) != b
    ensures Decode(b) == None
  {
    if Decode(b).Some? {
      EncodeDecode(b);
    }
  }

  /** `DecodeInjective` for eight bytes of the table at a time. */
  lemma DecodeInjectiveRow0Low(b: byte, c: byte)
    requires 0 <= b < 8 && Decode(b).Some? && Decode(c) == Decode(b)
    ensures c == b
  {
  }

  lemma DecodeInjectiveRow0High(b: byte, c: byte)
    requires 8 <= b < 16 && Decode(b).Some? && Decode(c) == Decode(b)
    ensures c == b
  {
  }

  lemma DecodeInjectiveRow1Low(b: byte, c: byte)
    requires 16 <= b < 24 && Decode(b).Some? && Decode(c) == Decode(b)
    ensures c == b
  {
  }

  lemma DecodeInjectiveRow1High(b: byte, c: byte)
    requires 24 <= b < 32 && Decode(b).Some? && Decode(c) == Decode(b)
    ensures c == b
  {
  }

  lemma DecodeInjectiveRow3Low(b: byte, c: byte)
    requires 48 <= b < 56 && Decode(b).Some? && Decode(c) == Decode(b)
    ensures c == b
  {
  }

  lemma DecodeInjectiveRow3High(b: byte, c: byte)
    requires 56 <= b < 64 && Decode(b).Some? && Decode(c) == Decode(b)
    ensures c == b
  {
  }

  lemma DecodeInjectiveRow4Low(b: byte, c: byte)
    requires 64 <= b < 72 && Decode(b).Some? && Decode(c) == Decode(b)
    ensures c == b
  {
  }

  lemma DecodeInjectiveRow5Low(b: byte, c: byte)
    requires 80 <= b < 88 && Decode(b).Some? && Decode(c) == Decode(b)
    ensures c == b
  {
  }

  lemma DecodeInjectiveRow5High(b: byte, c: byte)
    requires 88 <= b < 96 && Decode(b).Some? && Decode(c) == Decode(b)
    ensures c == b
  {
  }

  lemma DecodeInjectiveRow6Low(b: byte, c: byte)
    requires 96 <= b < 104 && Decode(b).Some? && Decode(c) == Decode(b)
    ensures c == b
  {
  }

  lemma DecodeInjectiveRow6High(b: byte, c: byte)
    requires 104 <= b < 112 && Decode(b).Some? && Decode(c) == Decode(b)
    ensures c == b
  {
  }

  lemma DecodeInjectiveRow7Low(b: byte, c: byte)
    requires 112 <= b < 120 && Decode(b).Some? && Decode(c) == Decode(b)
    ensures c == b
  {
  }

  lemma DecodeInjectiveRow7High(b: byte, c: byte)
    requires 120 <= b < 128 && Decode(b).Some? && Decode(c) == Decode(b)
    ensures c == b
  {
  }

  lemma DecodeInjectiveRow8Low(b: byte, c: byte)
    requires 128 <= b < 136 && Decode(b).Some? && Decode(c) == Decode(b)
    ensures c == b
  {
  }

  lemma DecodeInjectiveRow8High(b: byte, c: byte)
    requires 136 <= b < 144 && Decode(b).Some? && Decode(c) == Decode(b)
    ensures c == b
  {
  }

  lemma DecodeInjectiveRow9Low(b: byte, c: byte)
    requires 144 <= b < 152 && Decode(b).Some? && Decode(c) == Decode(b)
    ensures c == b
  {
  }

  lemma DecodeInjectiveRow9High(b: byte, c: byte)
    requires 152 <= b < 160 && Decode(b).Some? && Decode(c) == Decode(b)
    ensures c == b
  {
  }

  lemma DecodeInjectiveRowALow(b: byte, c: byte)
    requires 160 <= b < 168 && Decode(b).Some? && Decode(c) == Decode(b)
    ensures c == b
  {
  }

  lemma DecodeInjectiveRowCLow(b: byte, c: byte)
    requires 192 <= b < 200 && Decode(b).Some? && Decode(c) == Decode(b)
    ensures c == b
  {
  }

  lemma DecodeInjectiveRowCHigh(b: byte, c: byte)
    requires 200 <= b < 208 && Decode(b).Some? && Decode(c) == Decode(b)
    ensures c == b
  {
  }

  lemma DecodeInjectiveRowDLow(b: byte, c: byte)
    requires 208 <= b < 216 && Decode(b).Some? && Decode(c) == Decode(b)
    ensures c == b
  {
  }

  lemma DecodeInjectiveRowDHigh(b: byte, c: byte)
    requires 216 <= b < 224 && Decode(b).Some? && Decode(c) == Decode(b)
    ensures c == b
  {
  }

  lemma DecodeInjectiveRowFLow(b: byte, c: byte)
    requires 240 <= b < 248 && Decode(b).Some? && Decode(c) == Decode(b)
    ensures c == b
  {
  }

  lemma DecodeInjectiveRowFHigh(b: byte, c: byte)
    requires 248 <= b && Decode(b).Some? && Decode(c) == Decode(b)
    ensures c == b
  {
  }

  /** The numbers the table leaves out (the commented-out 3.10/3.11 opcodes
      and the gaps at 220 and 250) decode to nothing. */
  lemma UnlistedBytes(b: byte)
    requires 30 <= b <= 37 || b == 49 || b == 74 || 117 <= b <= 119 || b == 220 || b == 250
    ensures Decode(b) == None
    ensures forall op :: Encode(op) != b
  {
    assert Decode(b) == None by {
      if b < 48 {
      } else if b < 80 {
      } else if b < 128 {
      } else {
      }
    }
    DecodeNoneIsUnlisted(b);
  }

  /** Every Erg opcode lies in 196..254. */
  lemma ErgOpcodeRange(op: Opcode)
    requires IsErgSpecific(op)
    ensures 196 <= Encode(op) <= 254
  {
  }

  /** The opcodes numbered 196..219 are all Erg's own. */
  lemma ErgOpcodesWithArg(op: Opcode)
    requires 196 <= Encode(op) < 220
    ensures IsErgSpecific(op)
  {
  }

  /** From 220 on, every opcode is Erg's own except `NOT_IMPLEMENTED`. */
  lemma ErgOpcodesWithoutArg(op: Opcode)
    requires Encode(op) >= 220
    ensures IsErgSpecific(op) || op == NOT_IMPLEMENTED
  {
  }

  /** The only opcode numbered 196 or above that is not Erg's own is
      `NOT_IMPLEMENTED`. */
  lemma HighOpcodesAreErg(op: Opcode)
    requires Encode(op) >= 196
    ensures IsErgSpecific(op) || op == NOT_IMPLEMENTED
  {
    if Encode(op) < 220 {
      ErgOpcodesWithArg(op);
    } else {
      ErgOpcodesWithoutArg(op);
    }
  }

  /** Among the opcodes numbered from 196 on, those that take an argument
      are exactly the Erg opcodes numbered up to 219. */
  lemma ErgArgumentSplit(op: Opcode)
    requires Encode(op) >= 196
    ensures TakesArg(op) <==> IsErgSpecific(op) && Encode(op) as int < FIRST_ERG_NO_ARG
  {
    HighOpcodesAreErg(op);
  }
}
